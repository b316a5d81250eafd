/** The image provider table (src/config/imageProviders.ts). */
module ImageProviders {
  import opened Wrappers
  import opened Types
  import Lists

  datatype ImageProviderConfig = ImageProviderConfig(
    id: ImageProvider,
    name: string,
    description: string,
    requiresApiKey: bool,
    getKeyUrl: Option<string>,
    icon: Option<string>,
    isFree: bool)

  /** The entries of `IMAGE_PROVIDERS`. */
  const PICSUM_CONFIG: ImageProviderConfig := ImageProviderConfig(Picsum, "Lorem Picsum",
    "Free random images (no API key required)", false, None, Some("\U{1F3B2}"), true)
  const PIXABAY_CONFIG: ImageProviderConfig := ImageProviderConfig(Pixabay, "Pixabay",
    "High-quality free stock photos", true, Some("https://pixabay.com/api/docs/"), Some("\U{1F4F8}"), true)
  const PEXELS_CONFIG: ImageProviderConfig := ImageProviderConfig(Pexels, "Pexels",
    "Professional free stock photos", true, Some("https://www.pexels.com/api/"), Some("\U{1F4F7}"), true)
  const UNSPLASH_CONFIG: ImageProviderConfig := ImageProviderConfig(Unsplash, "Unsplash",
    "Beautiful photos by professional photographers", true, Some("https://unsplash.com/developers"), Some("\U{1F305}"), false)

  /** `IMAGE_PROVIDERS[p]`, which is also `getImageProviderConfig(p)`. */
  function ImageProviderConfigOf(p: ImageProvider): (c: ImageProviderConfig)
    ensures c.id == p
  {
    match p
    case Picsum => PICSUM_CONFIG
    case Pixabay => PIXABAY_CONFIG
    case Pexels => PEXELS_CONFIG
    case Unsplash => UNSPLASH_CONFIG
  }

  /** `DEFAULT_IMAGE_PROVIDER`. */
  const DEFAULT_IMAGE_PROVIDER: ImageProvider := Picsum

  /** The providers in the table's declaration order, which `Object.values` follows. */
  const IMAGE_PROVIDER_ORDER: seq<ImageProvider> := [Picsum, Pixabay, Pexels, Unsplash]

  /** `getImageProviderList()`: every entry of the table, in declaration order. */
  function ImageProviderList(): (list: seq<ImageProviderConfig>)
    ensures |list| == |IMAGE_PROVIDER_ORDER|
    ensures forall i | 0 <= i < |list| :: list[i] == ImageProviderConfigOf(IMAGE_PROVIDER_ORDER[i])
  {
    seq(|IMAGE_PROVIDER_ORDER|, i requires 0 <= i < |IMAGE_PROVIDER_ORDER| => ImageProviderConfigOf(IMAGE_PROVIDER_ORDER[i]))
  }

  /** Every provider's entry is in the list, and no provider appears twice. */
  lemma ImageProviderListCoversTable(p: ImageProvider)
    ensures ImageProviderConfigOf(p) in ImageProviderList()
    ensures forall i, j | 0 <= i < j < |ImageProviderList()| :: ImageProviderList()[i].id != ImageProviderList()[j].id
  {
    var list := ImageProviderList();
    var k := match p case Picsum => 0 case Pixabay => 1 case Pexels => 2 case Unsplash => 3;
    assert list[k] == ImageProviderConfigOf(p);
  }

  function IsFreeEntry(c: ImageProviderConfig): bool {
    c.isFree
  }

  /** `getFreeImageProviders()`: the entries marked free, in table order. */
  function FreeImageProviders(): (list: seq<ImageProviderConfig>)
    ensures forall c | c in list :: c.isFree
  {
    Lists.Filter(ImageProviderList(), IsFreeEntry)
  }

  /** Filtering four entries of which only the last is not free keeps the first three. */
  lemma FilterFreeOfFour(a0: ImageProviderConfig, a1: ImageProviderConfig, a2: ImageProviderConfig, a3: ImageProviderConfig)
    requires a0.isFree && a1.isFree && a2.isFree && !a3.isFree
    ensures Lists.Filter([a0, a1, a2, a3], IsFreeEntry) == [a0, a1, a2]
  {
    var head := [a0, a1, a2];
    assert Lists.Filter(head, IsFreeEntry) == head by {
      assert forall i | 0 <= i < |head| :: IsFreeEntry(head[i]);
      Lists.FilterKeepsAll(head, IsFreeEntry);
    }
    assert Lists.Filter([a3], IsFreeEntry) == [] by {
      assert [a3][1..] == [];
    }
    assert [a0, a1, a2, a3] == head + [a3];
    Lists.FilterAppend(head, [a3], IsFreeEntry);
  }

  /** The free providers are picsum, pixabay and pexels, in that order. */
  lemma FreeImageProvidersAre()
    ensures FreeImageProviders() ==
      [ImageProviderConfigOf(Picsum), ImageProviderConfigOf(Pixabay), ImageProviderConfigOf(Pexels)]
  {
    assert ImageProviderList() == [PICSUM_CONFIG, PIXABAY_CONFIG, PEXELS_CONFIG, UNSPLASH_CONFIG];
    FilterFreeOfFour(PICSUM_CONFIG, PIXABAY_CONFIG, PEXELS_CONFIG, UNSPLASH_CONFIG);
  }

  /** Only picsum works without a key, and it is the default provider. */
  lemma KeyRequirement(p: ImageProvider)
    ensures !ImageProviderConfigOf(p).requiresApiKey <==> p == Picsum
    ensures !ImageProviderConfigOf(DEFAULT_IMAGE_PROVIDER).requiresApiKey
  {
  }

  /** Every provider that needs a key says where to get one. */
  lemma KeyUrlWhenRequired(p: ImageProvider)
    ensures ImageProviderConfigOf(p).requiresApiKey ==> ImageProviderConfigOf(p).getKeyUrl.Some?
  {
  }
}
