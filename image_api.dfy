/** Image resolution (src/hooks/useImageAPI.ts): the chosen provider's adapter,
    then Lorem Picsum, then a built-in image, with an advisory message for each
    fallback. Every network call is an input outcome; the random draws are inputs. */
module ImageApi {
  import opened Wrappers
  import opened Types
  import opened Text
  import Lists
  import ImageProviders

  /** The providers that need a key: `pixabay`, `pexels` and `unsplash`. The
      hook receives the provider as a string, so any other id can reach it. */
  predicate KeyRequired(provider: string) {
    provider == Pixabay.Id() || provider == Pexels.Id() || provider == Unsplash.Id()
  }

  /** The hard-coded set agrees with the provider table's `requiresApiKey`. */
  lemma KeyRequiredMatchesTable(p: ImageProvider)
    ensures KeyRequired(p.Id()) <==> ImageProviders.ImageProviderConfigOf(p).requiresApiKey
  {
  }

  // ---------------------------------------------------------------------
  // Lorem Picsum

  /** `moodSeeds[mood]`: five seeds per mood. */
  function MoodSeeds(m: Mood): (seeds: seq<nat>)
    requires IsImageMood(m)
    ensures |seeds| == 5
  {
    match m
    case Happy => [100, 200, 300, 400, 500]
    case Sad => [600, 700, 800, 900, 1000]
    case Motivated => [1100, 1200, 1300, 1400, 1500]
  }

  /** The seeds of a mood are consecutive hundreds, and the three lists do not overlap. */
  lemma MoodSeedsShape(m: Mood, n: Mood)
    requires IsImageMood(m) && IsImageMood(n)
    ensures forall i | 0 <= i < 5 :: MoodSeeds(m)[i] == MoodSeeds(m)[0] + 100 * i
    ensures m != n ==> forall s | s in MoodSeeds(m) :: s !in MoodSeeds(n)
  {
  }

  /** The info lookup asks for `seed % 1000`, so a motivated seed asks for the same
      picture id as the happy seed in the same position, and the sad seed 1000
      asks for id 0. */
  lemma PicsumInfoIds()
    ensures forall i | 0 <= i < 5 :: MoodSeeds(Motivated)[i] % 1000 == MoodSeeds(Happy)[i] % 1000
    ensures MoodSeeds(Sad)[4] % 1000 == 0
  {
  }

  /** The body of the info reply: an `author` field (absent, or not a string,
      is `None`), or a body that is not JSON, on which `json()` throws. */
  datatype PicsumInfo = Info(author: Option<string>) | NotJson

  /** One call of `fetchPicsumImage`: the random number that picks the seed and
      the outcome of the info request. */
  datatype PicsumDraw = PicsumDraw(r: real, info: Reply<PicsumInfo>)

  predicate ValidDraw(d: PicsumDraw) {
    0.0 <= d.r < 1.0
  }

  /** The seed a draw picks: always one of the mood's seeds. */
  function PicsumSeed(m: Mood, d: PicsumDraw): (seed: nat)
    requires IsImageMood(m) && ValidDraw(d)
    ensures seed in MoodSeeds(m)
  {
    Lists.Pick(MoodSeeds(m), d.r)
  }

  const PICSUM_INFO: string := "https://picsum.photos/id/"

  const INFO_SUFFIX: string := "/info"

  /** The info request for a seed: the endpoint, the photo id `seed % 1000`, then
      "/info". */
  function PicsumInfoUrl(seed: nat): (url: string)
    ensures url == PICSUM_INFO + NatToString(seed % 1000) + INFO_SUFFIX
  {
    PICSUM_INFO + NatToString(seed % 1000) + INFO_SUFFIX
  }

  /** The info request for a seed names that seed's own photo exactly when the
      seed is below 1000. */
  lemma InfoUrlNamesSeed(seed: nat)
    ensures PicsumInfoUrl(seed) == PICSUM_INFO + NatToString(seed) + INFO_SUFFIX <==> seed < 1000
  {
    var id := seed % 1000;
    if seed < 1000 {
      assert id == seed;
    } else if PicsumInfoUrl(seed) == PICSUM_INFO + NatToString(seed) + INFO_SUFFIX {
      MiddleCancels(PICSUM_INFO, NatToString(id), NatToString(seed), INFO_SUFFIX);
      NatToStringInjective(id, seed);
    }
  }

  /** Two strings framed by the same prefix and suffix are equal when the framed
      strings are. */
  lemma MiddleCancels(p: string, a: string, b: string, q: string)
    requires p + a + q == p + b + q
    ensures a == b
  {
    assert |a| == |b|;
    assert a == (p + a + q)[|p|..|p| + |a|];
    assert b == (p + b + q)[|p|..|p| + |b|];
  }

  /** The info request of a call asks about the photo the record is named after
      (`picsum-<seed>`) exactly when the drawn seed is below 1000: always for
      happy, never for motivated, and for sad except on seed 1000. */
  lemma PicsumInfoAsksForRecordPhoto(m: Mood, d: PicsumDraw)
    requires IsImageMood(m) && ValidDraw(d)
    ensures var seed := PicsumSeed(m, d);
      PicsumInfoUrl(seed) == PICSUM_INFO + NatToString(seed) + INFO_SUFFIX <==>
        m == Happy || (m == Sad && seed != 1000)
  {
    InfoUrlNamesSeed(PicsumSeed(m, d));
  }

  /** The photographer's name `info.author || 'Lorem Picsum'`, where `info` is `{}`
      for a reply that is not ok; `None` when the call throws (the request is
      rejected or the ok body is not JSON). */
  function PicsumAuthor(info: Reply<PicsumInfo>): (name: Option<string>)
    ensures name.None? <==> info.Rejected? || info == Delivered(NotJson)
    ensures name.Some? ==> name.value != ""
    ensures !info.Delivered? && name.Some? ==> name.value == LOREM_PICSUM
    ensures info.Delivered? && info.body.Info? && info.body.author.Some? && info.body.author.value != "" ==>
      name == info.body.author
    ensures info.Delivered? && info.body.Info? && (info.body.author.None? || info.body.author.value == "") ==>
      name == Some(LOREM_PICSUM)
  {
    match info
    case Delivered(Info(Some(a))) => if Truthy(a) then Some(a) else Some(LOREM_PICSUM)
    case Delivered(Info(None)) => Some(LOREM_PICSUM)
    case Delivered(NotJson) => None
    case NotOk(_) => Some(LOREM_PICSUM)
    case Rejected(_) => None
  }

  const PICSUM_LARGE: string := "https://picsum.photos/1920/1080?random="
  const PICSUM_SMALL: string := "https://picsum.photos/400/300?random="
  const PICSUM_THUMB: string := "https://picsum.photos/200/200?random="
  const MOOD_WALLPAPER: string := " mood wallpaper"
  const PICSUM: string := "picsum"
  const PICSUM_PREFIX: string := "picsum-"
  const LOREM_PICSUM: string := "Lorem Picsum"

  /** `fetchPicsumImage(mood)`: the record built around the drawn seed, or `None`
      when the call throws. */
  function PicsumImage(m: Mood, d: PicsumDraw): (r: Option<UnsplashImage>)
    requires IsImageMood(m) && ValidDraw(d)
    ensures r.Some? <==> PicsumAuthor(d.info).Some?
  {
    var seed := PicsumSeed(m, d);
    var base := PICSUM_LARGE + NatToString(seed);
    match PicsumAuthor(d.info)
    case None => None
    case Some(name) =>
      Some(UnsplashImage(
        PICSUM_PREFIX + NatToString(seed),
        ImageUrls(base, base, base, PICSUM_SMALL + NatToString(seed), PICSUM_THUMB + NatToString(seed)),
        Capitalize(m.Name()) + MOOD_WALLPAPER,
        Photographer(name, PICSUM)))
  }

  /** A picsum record is named after one of the mood's seeds, describes the mood,
      credits the info reply's author ("Lorem Picsum" when there is none) and
      uses one size for raw, full and regular. */
  lemma PicsumRecordShape(m: Mood, d: PicsumDraw)
    requires IsImageMood(m) && ValidDraw(d)
    requires PicsumImage(m, d).Some?
    ensures var img := PicsumImage(m, d).value;
      && img.id == PICSUM_PREFIX + NatToString(PicsumSeed(m, d))
      && PicsumSeed(m, d) in MoodSeeds(m)
      && img.altDescription == Capitalize(m.Name()) + MOOD_WALLPAPER
      && img.urls.small == PICSUM_SMALL + NatToString(PicsumSeed(m, d))
      && img.user == Photographer(PicsumAuthor(d.info).value, PICSUM)
      && (!d.info.Delivered? ==> img.user.name == LOREM_PICSUM)
      && img.urls.raw == img.urls.full == img.urls.regular
  {
  }

  // ---------------------------------------------------------------------
  // The built-in images

  const HAPPY_PHOTO: string := "1506905925346-21bda4d32df4"
  const SAD_PHOTO: string := "1515694346937-94d85e41e6f0"
  const MOTIVATED_PHOTO: string := "1464822759844-d150ad6d1dff"

  /** The Unsplash photo behind each built-in image. */
  function FallbackPhoto(m: Mood): string
    requires IsImageMood(m)
  {
    match m
    case Happy => HAPPY_PHOTO
    case Sad => SAD_PHOTO
    case Motivated => MOTIVATED_PHOTO
  }

  const UNSPLASH_PHOTO: string := "https://images.unsplash.com/photo-"
  const LARGE_CROP: string := "?w=1920&h=1080&fit=crop"
  const SMALL_CROP: string := "?w=400&h=300&fit=crop"
  const THUMB_CROP: string := "?w=200&h=200&fit=crop"

  /** The sizes of a built-in image: 1920x1080 for raw, full and regular,
      400x300 and 200x200 for the small ones. */
  function FallbackUrls(photo: string): (urls: ImageUrls)
    ensures urls.raw == urls.full == urls.regular
  {
    var base := UNSPLASH_PHOTO + photo;
    var large := base + LARGE_CROP;
    ImageUrls(large, large, large, base + SMALL_CROP, base + THUMB_CROP)
  }

  const HAPPY_ALT: string := "Beautiful mountain landscape with sunny sky"
  const SAD_ALT: string := "Peaceful rainy day scene"
  const MOTIVATED_ALT: string := "Inspiring mountain peak at sunrise"

  /** The description of each built-in image. */
  function FallbackAlt(m: Mood): string
    requires IsImageMood(m)
  {
    match m
    case Happy => HAPPY_ALT
    case Sad => SAD_ALT
    case Motivated => MOTIVATED_ALT
  }

  const FALLBACK_PREFIX: string := "fallback-"
  const FREE_IMAGES: Photographer := Photographer("Free Images", "free")

  /** `getFallbackImage(mood)`. */
  function FallbackImage(m: Mood): (img: UnsplashImage)
    requires IsImageMood(m)
  {
    UnsplashImage(FALLBACK_PREFIX + m.Name(), FallbackUrls(FallbackPhoto(m)), FallbackAlt(m), FREE_IMAGES)
  }

  /** The built-in image of a mood is named "fallback-<mood>", is credited to
      "Free Images"/"free" and uses one size for raw, full and regular; the
      three moods get three different images. */
  lemma FallbackImageShape(m: Mood, n: Mood)
    requires IsImageMood(m) && IsImageMood(n)
    ensures FallbackImage(m).id == FALLBACK_PREFIX + m.Name()
    ensures FallbackImage(m).user == FREE_IMAGES
    ensures FallbackImage(m).urls.raw == FallbackImage(m).urls.full == FallbackImage(m).urls.regular
    ensures m != n ==> FallbackImage(m).urls.raw != FallbackImage(n).urls.raw
  {
    if m != n {
      var a := FallbackPhoto(m);
      var b := FallbackPhoto(n);
      assert a[..2] != b[..2] || a[2] != b[2];
      var prefix := UNSPLASH_PHOTO;
      var suffix := LARGE_CROP;
      assert FallbackImage(m).urls.raw == prefix + a + suffix;
      assert FallbackImage(n).urls.raw == prefix + b + suffix;
      assert (prefix + a + suffix)[|prefix|..|prefix| + 3] == a[..3];
      assert (prefix + b + suffix)[|prefix|..|prefix| + 3] == b[..3];
    }
  }

  /** Built-in images and picsum images never share an id. */
  lemma FallbackIsNotPicsum(m: Mood, n: Mood, d: PicsumDraw)
    requires IsImageMood(m) && IsImageMood(n) && ValidDraw(d)
    ensures PicsumImage(n, d).Some? ==> PicsumImage(n, d).value.id != FallbackImage(m).id
  {
    if PicsumImage(n, d).Some? {
      PicsumRecordShape(n, d);
      FallbackImageShape(m, m);
      assert PicsumImage(n, d).value.id[0] == 'p';
      assert FallbackImage(m).id[0] == 'f';
    }
  }

  // ---------------------------------------------------------------------
  // The key-requiring adapters

  /** Why an adapter threw: no key, a network failure (a `TypeError` whose message
      mentions "fetch"), a status that is not ok, a 401 reply, an empty result,
      a read of the out-of-scope `data` variable, or anything else rethrown. */
  datatype AdapterFailure =
    | MissingKey
    | NetworkError
    | BadStatus(status: nat)
    | InvalidKey
    | NoResults
    | DataOutOfScope
    | Rethrown(error: JsError)

  /** What one adapter call ends with: an image, or a thrown error. */
  datatype AdapterOutcome = Produced(image: UnsplashImage) | Failed(cause: AdapterFailure)

  const FETCH: string := "fetch"

  /** The adapters' inner catch: a `TypeError` mentioning "fetch" becomes a
      network error; anything else is rethrown as it is. */
  function FetchFailure(e: JsError): (f: AdapterFailure)
    ensures f == NetworkError <==> e.TypeError? && Contains(e.message, FETCH)
    ensures f != NetworkError ==> f == Rethrown(e)
  {
    if e.TypeError? && Contains(e.message, FETCH) then NetworkError else Rethrown(e)
  }

  /** One element of Pixabay's `hits`. */
  datatype PixabayHit = PixabayHit(id: nat, largeImageURL: string, webformatURL: string,
    previewURL: string, tags: string, user: string)

  const PIXABAY_PREFIX: string := "pixabay-"

  /** The record built from a Pixabay hit. */
  function PixabayRecord(m: Mood, hit: PixabayHit): (img: UnsplashImage)
    ensures img.id == PIXABAY_PREFIX + NatToString(hit.id)
    ensures img.altDescription == if Truthy(hit.tags) then hit.tags else m.Name() + MOOD_WALLPAPER
    ensures img.user == Photographer(hit.user, hit.user)
  {
    UnsplashImage(PIXABAY_PREFIX + NatToString(hit.id),
      ImageUrls(hit.largeImageURL, hit.largeImageURL, hit.webformatURL, hit.webformatURL, hit.previewURL),
      if Truthy(hit.tags) then hit.tags else m.Name() + MOOD_WALLPAPER,
      Photographer(hit.user, hit.user))
  }

  /** The checks `fetchPixabayImage` makes before it uses the reply: the key, the
      request, the status and a non-empty `hits`. `None` means all passed. */
  function PixabayChecks(key: Option<string>, reply: Reply<Option<seq<PixabayHit>>>): (f: Option<AdapterFailure>)
    ensures f.None? <==> HasUsableKey(key) && reply.Delivered? && reply.body.Some? && reply.body.value != []
  {
    if !HasUsableKey(key) then Some(MissingKey)
    else match reply
      case Rejected(e) => Some(FetchFailure(e))
      case NotOk(s) => Some(BadStatus(s))
      case Delivered(hits) => if hits.None? || hits.value == [] then Some(NoResults) else None
  }

  /** `fetchPixabayImage` as written: after every check passes it reads `data`,
      which was declared inside the `try` block and is out of scope there, so it
      throws instead of returning. */
  function PixabayAsWritten(key: Option<string>, reply: Reply<Option<seq<PixabayHit>>>): (o: AdapterOutcome)
    ensures o.Failed?
  {
    match PixabayChecks(key, reply)
    case Some(f) => Failed(f)
    case None => Failed(DataOutOfScope)
  }

  /** `fetchPixabayImage` with `data` in scope: once the checks pass, the record
      of the hit picked by the draw `r`. */
  function PixabayCorrected(m: Mood, key: Option<string>, r: real, reply: Reply<Option<seq<PixabayHit>>>): (o: AdapterOutcome)
    requires 0.0 <= r < 1.0
    ensures o.Produced? <==> PixabayChecks(key, reply).None?
    ensures o.Failed? ==> o.cause == PixabayChecks(key, reply).value
    ensures o.Produced? ==> exists h | h in reply.body.value :: o.image == PixabayRecord(m, h)
  {
    match PixabayChecks(key, reply)
    case Some(f) => Failed(f)
    case None =>
      var hit := Lists.Pick(reply.body.value, r);
      Produced(PixabayRecord(m, hit))
  }

  /** The `src` sizes of a Pexels photo. */
  datatype PexelsSrc = PexelsSrc(original: string, large2x: string, large: string, medium: string, small: string)

  /** One element of Pexels's `photos`. */
  datatype PexelsPhoto = PexelsPhoto(id: nat, src: PexelsSrc, alt: string, photographer: string)

  const PEXELS_PREFIX: string := "pexels-"

  /** The record built from a Pexels photo. */
  function PexelsRecord(m: Mood, photo: PexelsPhoto): (img: UnsplashImage)
    ensures img.id == PEXELS_PREFIX + NatToString(photo.id)
    ensures img.altDescription == if Truthy(photo.alt) then photo.alt else m.Name() + MOOD_WALLPAPER
    ensures img.user == Photographer(photo.photographer, photo.photographer)
  {
    UnsplashImage(PEXELS_PREFIX + NatToString(photo.id),
      ImageUrls(photo.src.original, photo.src.large2x, photo.src.large, photo.src.medium, photo.src.small),
      if Truthy(photo.alt) then photo.alt else m.Name() + MOOD_WALLPAPER,
      Photographer(photo.photographer, photo.photographer))
  }

  /** The checks of `fetchPexelsImage`; a 401 reply is reported as an invalid key. */
  function PexelsChecks(key: Option<string>, reply: Reply<Option<seq<PexelsPhoto>>>): (f: Option<AdapterFailure>)
    ensures f.None? <==> HasUsableKey(key) && reply.Delivered? && reply.body.Some? && reply.body.value != []
    ensures HasUsableKey(key) && reply == NotOk(401) ==> f == Some(InvalidKey)
  {
    if !HasUsableKey(key) then Some(MissingKey)
    else match reply
      case Rejected(e) => Some(FetchFailure(e))
      case NotOk(s) => if s == 401 then Some(InvalidKey) else Some(BadStatus(s))
      case Delivered(photos) => if photos.None? || photos.value == [] then Some(NoResults) else None
  }

  /** `fetchPexelsImage` as written: like Pixabay, it reads the out-of-scope `data`
      after the checks and throws. */
  function PexelsAsWritten(key: Option<string>, reply: Reply<Option<seq<PexelsPhoto>>>): (o: AdapterOutcome)
    ensures o.Failed?
  {
    match PexelsChecks(key, reply)
    case Some(f) => Failed(f)
    case None => Failed(DataOutOfScope)
  }

  /** `fetchPexelsImage` with `data` in scope. */
  function PexelsCorrected(m: Mood, key: Option<string>, r: real, reply: Reply<Option<seq<PexelsPhoto>>>): (o: AdapterOutcome)
    requires 0.0 <= r < 1.0
    ensures o.Produced? <==> PexelsChecks(key, reply).None?
    ensures o.Failed? ==> o.cause == PexelsChecks(key, reply).value
    ensures o.Produced? ==> exists p | p in reply.body.value :: o.image == PexelsRecord(m, p)
  {
    match PexelsChecks(key, reply)
    case Some(f) => Failed(f)
    case None =>
      var photo := Lists.Pick(reply.body.value, r);
      Produced(PexelsRecord(m, photo))
  }

  /** `fetchUnsplashImage`: the reply body itself when the reply is ok. */
  function UnsplashAdapter(key: Option<string>, reply: Reply<UnsplashImage>): (o: AdapterOutcome)
    ensures o.Produced? <==> HasUsableKey(key) && reply.Delivered?
    ensures o.Produced? ==> o.image == reply.body
    ensures HasUsableKey(key) && reply == NotOk(401) ==> o == Failed(InvalidKey)
  {
    if !HasUsableKey(key) then Failed(MissingKey)
    else match reply
      case Rejected(e) => Failed(FetchFailure(e))
      case NotOk(s) => if s == 401 then Failed(InvalidKey) else Failed(BadStatus(s))
      case Delivered(img) => Produced(img)
  }

  /** Whenever the reply carries at least one hit, the corrected Pixabay adapter
      produces a hit's record and the adapter as written throws instead. */
  lemma PixabayDataScope(m: Mood, key: Option<string>, r: real, hits: seq<PixabayHit>)
    requires 0.0 <= r < 1.0 && HasUsableKey(key) && hits != []
    ensures PixabayAsWritten(key, Delivered(Some(hits))) == Failed(DataOutOfScope)
    ensures PixabayCorrected(m, key, r, Delivered(Some(hits))) == Produced(PixabayRecord(m, Lists.Pick(hits, r)))
  {
  }

  /** The same for Pexels. */
  lemma PexelsDataScope(m: Mood, key: Option<string>, r: real, photos: seq<PexelsPhoto>)
    requires 0.0 <= r < 1.0 && HasUsableKey(key) && photos != []
    ensures PexelsAsWritten(key, Delivered(Some(photos))) == Failed(DataOutOfScope)
    ensures PexelsCorrected(m, key, r, Delivered(Some(photos))) == Produced(PexelsRecord(m, Lists.Pick(photos, r)))
  {
  }

  // ---------------------------------------------------------------------
  // The tiers of fetchImageByMood

  /** Where the returned image came from. */
  datatype Source = FromAdapter | FromPicsum | BuiltIn

  /** What one call of `fetchImageByMood` ends with: the image, the `error`
      advisory, where the image came from and whether a key-requiring adapter
      was called at all. */
  datatype Resolution = Resolution(image: UnsplashImage, error: Option<string>, source: Source, adapterCalled: bool)

  const PROVIDER_DOWN: string := " temporarily unavailable. Using free images."

  /** The advisory after a failing provider other than picsum, before picsum is tried. */
  function ProviderDownAdvice(provider: string): (advice: string)
    ensures StartsWith(advice, provider)
  {
    provider + PROVIDER_DOWN
  }

  /** The advisory after the picsum retry failed as well. */
  const RETRY_FAILED_ADVICE: string := "Image services temporarily unavailable. Using built-in fallback."

  /** The advisory after picsum, as the chosen provider, failed. */
  const PICSUM_FAILED_ADVICE: string := "All image services temporarily unavailable. Using built-in fallback."

  /** The first tier a call takes: picsum because the key is missing, picsum as
      the chosen provider, the chosen key-requiring adapter, or (any other id)
      the built-in image. */
  datatype Route = KeyMissing | PicsumChosen | AdapterChosen | UnknownProvider

  /** The key check followed by the `switch` on the provider id. */
  function RouteOf(provider: string, key: Option<string>): (r: Route)
    ensures r == KeyMissing <==> KeyRequired(provider) && !HasUsableKey(key)
    ensures r == PicsumChosen <==> provider == PICSUM
    ensures r == AdapterChosen <==> KeyRequired(provider) && HasUsableKey(key)
    ensures r == UnknownProvider <==> !KeyRequired(provider) && provider != PICSUM
  {
    if KeyRequired(provider) && !HasUsableKey(key) then KeyMissing
    else if provider == PICSUM then PicsumChosen
    else if KeyRequired(provider) then AdapterChosen
    else UnknownProvider
  }

  /** The `try` block: the image of the first tier, or `None` when it throws. */
  function FirstTier(route: Route, m: Mood, adapter: AdapterOutcome, first: PicsumDraw): (img: Option<UnsplashImage>)
    requires IsImageMood(m) && ValidDraw(first)
    ensures route == UnknownProvider ==> img == Some(FallbackImage(m))
    ensures route == AdapterChosen ==> (img.Some? <==> adapter.Produced?)
    ensures route == AdapterChosen && img.Some? ==> img.value == adapter.image
    ensures route in {KeyMissing, PicsumChosen} ==> img == PicsumImage(m, first)
  {
    match route
    case KeyMissing => PicsumImage(m, first)
    case PicsumChosen => PicsumImage(m, first)
    case AdapterChosen => if adapter.Produced? then Some(adapter.image) else None
    case UnknownProvider => Some(FallbackImage(m))
  }

  /** The source of a first-tier image. */
  function FirstTierSource(route: Route): Source {
    match route
    case AdapterChosen => FromAdapter
    case UnknownProvider => BuiltIn
    case _ => FromPicsum
  }

  /** The catch branch for a provider other than picsum: advise, then try picsum
      with the draw `d`, then the built-in image. */
  function AfterProviderFailure(provider: string, m: Mood, d: PicsumDraw, adapterCalled: bool): (res: Resolution)
    requires IsImageMood(m) && ValidDraw(d)
    ensures res.adapterCalled == adapterCalled && res.source != FromAdapter
    ensures res.source == FromPicsum <==> PicsumImage(m, d).Some?
    ensures res.source == FromPicsum ==>
      Some(res.image) == PicsumImage(m, d) && res.error == Some(ProviderDownAdvice(provider))
    ensures res.source == BuiltIn ==> res.image == FallbackImage(m) && res.error == Some(RETRY_FAILED_ADVICE)
  {
    match PicsumImage(m, d)
    case Some(img) => Resolution(img, Some(ProviderDownAdvice(provider)), FromPicsum, adapterCalled)
    case None => Resolution(FallbackImage(m), Some(RETRY_FAILED_ADVICE), BuiltIn, adapterCalled)
  }

  /** The whole of `fetchImageByMood(mood)` for provider `provider` and key `key`:
      `adapter` is the outcome the chosen key-requiring adapter would have,
      `first` and `second` are the first and second picsum calls. */
  function Resolve(provider: string, key: Option<string>, m: Mood, adapter: AdapterOutcome,
                   first: PicsumDraw, second: PicsumDraw): (res: Resolution)
    requires IsImageMood(m) && ValidDraw(first) && ValidDraw(second)
  {
    var route := RouteOf(provider, key);
    match FirstTier(route, m, adapter, first)
    case Some(img) => Resolution(img, None, FirstTierSource(route), route == AdapterChosen)
    case None =>
      if route == PicsumChosen then Resolution(FallbackImage(m), Some(PICSUM_FAILED_ADVICE), BuiltIn, false)
      else AfterProviderFailure(provider, m, if route == KeyMissing then second else first, route == AdapterChosen)
  }

  /** `Resolve` in the order the hook takes the steps: the first tier's image
      without advisory, else picsum's own failure advisory, else the catch
      branch's picsum call `next` with the provider's advisory, else the
      built-in image. */
  lemma ResolveSteps(provider: string, key: Option<string>, m: Mood, adapter: AdapterOutcome,
                     first: PicsumDraw, second: PicsumDraw, next: PicsumDraw)
    requires IsImageMood(m) && ValidDraw(first) && ValidDraw(second)
    requires next == if RouteOf(provider, key) == KeyMissing then second else first
    ensures var route := RouteOf(provider, key);
      var attempt := FirstTier(route, m, adapter, first);
      var res := Resolve(provider, key, m, adapter, first, second);
      && (attempt.Some? ==> res.image == attempt.value && res.error == None)
      && (attempt.None? && route == PicsumChosen ==>
            res.image == FallbackImage(m) && res.error == Some(PICSUM_FAILED_ADVICE))
      && (attempt.None? && route != PicsumChosen && PicsumImage(m, next).Some? ==>
            res.image == PicsumImage(m, next).value && res.error == Some(ProviderDownAdvice(provider)))
      && (attempt.None? && route != PicsumChosen && PicsumImage(m, next).None? ==>
            res.image == FallbackImage(m) && res.error == Some(RETRY_FAILED_ADVICE))
  {
  }

  /** A key-requiring provider without a usable key never calls its adapter: the
      result is whatever picsum gives, whatever the adapter would have done; if
      that picsum call fails, the second one is tried with the provider's advisory. */
  lemma KeyMissingUsesPicsum(provider: string, key: Option<string>, m: Mood,
                             a1: AdapterOutcome, a2: AdapterOutcome, first: PicsumDraw, second: PicsumDraw)
    requires IsImageMood(m) && ValidDraw(first) && ValidDraw(second)
    requires KeyRequired(provider) && !HasUsableKey(key)
    ensures !Resolve(provider, key, m, a1, first, second).adapterCalled
    ensures Resolve(provider, key, m, a1, first, second) == Resolve(provider, key, m, a2, first, second)
    ensures PicsumImage(m, first).Some? ==>
      Resolve(provider, key, m, a1, first, second) == Resolution(PicsumImage(m, first).value, None, FromPicsum, false)
    ensures PicsumImage(m, first).None? ==>
      Resolve(provider, key, m, a1, first, second) == AfterProviderFailure(provider, m, second, false)
  {
  }

  /** Dispatch: picsum goes to picsum, a key-requiring provider with a key to its
      adapter, and any other id straight to the built-in image without advisory. */
  lemma Dispatch(provider: string, key: Option<string>, m: Mood, adapter: AdapterOutcome, first: PicsumDraw, second: PicsumDraw)
    requires IsImageMood(m) && ValidDraw(first) && ValidDraw(second)
    ensures var res := Resolve(provider, key, m, adapter, first, second);
      && (provider == PICSUM && PicsumImage(m, first).Some? ==>
            res == Resolution(PicsumImage(m, first).value, None, FromPicsum, false))
      && (KeyRequired(provider) && HasUsableKey(key) ==> res.adapterCalled)
      && (KeyRequired(provider) && HasUsableKey(key) && adapter.Produced? ==>
            res == Resolution(adapter.image, None, FromAdapter, true))
      && (!KeyRequired(provider) && provider != PICSUM ==>
            res == Resolution(FallbackImage(m), None, BuiltIn, false))
  {
  }

  /** A failing key-requiring provider advises "<provider> temporarily unavailable"
      and uses picsum; when picsum fails too the advisory changes and the built-in
      image is used. */
  lemma ProviderFailureTiers(provider: string, key: Option<string>, m: Mood, adapter: AdapterOutcome, first: PicsumDraw, second: PicsumDraw)
    requires IsImageMood(m) && ValidDraw(first) && ValidDraw(second)
    requires KeyRequired(provider) && HasUsableKey(key) && adapter.Failed?
    ensures var res := Resolve(provider, key, m, adapter, first, second);
      && (PicsumImage(m, first).Some? ==>
            res.image == PicsumImage(m, first).value &&
            res.error == Some(provider + PROVIDER_DOWN))
      && (PicsumImage(m, first).None? ==>
            res.image == FallbackImage(m) &&
            res.error == Some(RETRY_FAILED_ADVICE))
  {
  }

  /** A failing picsum provider goes straight to the built-in image. */
  lemma PicsumFailureTier(key: Option<string>, m: Mood, adapter: AdapterOutcome, first: PicsumDraw, second: PicsumDraw)
    requires IsImageMood(m) && ValidDraw(first) && ValidDraw(second)
    requires PicsumImage(m, first).None?
    ensures Resolve(PICSUM, key, m, adapter, first, second) ==
      Resolution(FallbackImage(m), Some(PICSUM_FAILED_ADVICE), BuiltIn, false)
  {
  }

  /** The advisory and the image do not depend on why the adapter failed. */
  lemma FailureCauseIgnored(provider: string, key: Option<string>, m: Mood, f1: AdapterFailure, f2: AdapterFailure,
                            first: PicsumDraw, second: PicsumDraw)
    requires IsImageMood(m) && ValidDraw(first) && ValidDraw(second)
    ensures Resolve(provider, key, m, Failed(f1), first, second) == Resolve(provider, key, m, Failed(f2), first, second)
  {
  }

  /** The image is always one of the tiers' images: the adapter's, one of the two
      picsum records, or the built-in one, as the source says; and an advisory
      is set exactly when the first tier threw. */
  lemma ImageComesFromATier(provider: string, key: Option<string>, m: Mood, adapter: AdapterOutcome, first: PicsumDraw, second: PicsumDraw)
    requires IsImageMood(m) && ValidDraw(first) && ValidDraw(second)
    ensures var res := Resolve(provider, key, m, adapter, first, second);
      && (res.source == FromAdapter ==> adapter.Produced? && res.image == adapter.image)
      && (res.source == FromPicsum ==>
            Some(res.image) == PicsumImage(m, first) || Some(res.image) == PicsumImage(m, second))
      && (res.source == BuiltIn ==> res.image == FallbackImage(m))
      && (res.error.None? <==> FirstTier(RouteOf(provider, key), m, adapter, first).Some?)
  {
  }

  /** With the adapters as written, pixabay and pexels never deliver their own image. */
  lemma AsWrittenNeverFromAdapter(provider: string, key: Option<string>, m: Mood,
                                  hits: Reply<Option<seq<PixabayHit>>>, photos: Reply<Option<seq<PexelsPhoto>>>,
                                  first: PicsumDraw, second: PicsumDraw)
    requires IsImageMood(m) && ValidDraw(first) && ValidDraw(second)
    ensures Resolve(Pixabay.Id(), key, m, PixabayAsWritten(key, hits), first, second).source != FromAdapter
    ensures Resolve(Pexels.Id(), key, m, PexelsAsWritten(key, photos), first, second).source != FromAdapter
  {
  }

  /** The state of one `useImageAPI(provider, apiKey)` hook. */
  class ImageApiHook {
    const provider: string
    const apiKey: Option<string>
    var loading: bool
    var error: Option<string>

    /** An omitted provider defaults to picsum; nothing is loading and there is no error. */
    constructor (provider: Option<string>, apiKey: Option<string>)
      ensures this.provider == provider.GetOr(PICSUM) && this.apiKey == apiKey
      ensures !loading && error == None
    {
      this.provider := provider.GetOr(PICSUM);
      this.apiKey := apiKey;
      loading := false;
      error := None;
    }

    /** `fetchImageByMood(mood)`: clears the advisory, tries the tiers in order
        and ends with `loading` false, on every path. */
    method FetchImageByMood(m: Mood, adapter: AdapterOutcome, first: PicsumDraw, second: PicsumDraw)
      returns (image: UnsplashImage)
      requires IsImageMood(m) && ValidDraw(first) && ValidDraw(second)
      modifies this
      ensures image == Resolve(provider, apiKey, m, adapter, first, second).image
      ensures error == Resolve(provider, apiKey, m, adapter, first, second).error
      ensures !loading
    {
      loading := true;
      error := None;
      var route := RouteOf(provider, apiKey);
      // The catch branch's picsum call is the second one when the first was the key-missing tier.
      var next := if route == KeyMissing then second else first;
      ResolveSteps(provider, apiKey, m, adapter, first, second, next);
      // The try block; `None` stands for "it threw".
      var attempt := FirstTier(route, m, adapter, first);
      if attempt.Some? {
        image := attempt.value;
      } else if route != PicsumChosen {
        error := Some(ProviderDownAdvice(provider));
        var retry := PicsumImage(m, next);
        if retry.Some? {
          image := retry.value;
        } else {
          error := Some(RETRY_FAILED_ADVICE);
          image := FallbackImage(m);
        }
      } else {
        error := Some(PICSUM_FAILED_ADVICE);
        image := FallbackImage(m);
      }
      loading := false;
    }
  }
}
