/** The application's records (src/types/index.ts). */
module Types {
  import opened Wrappers

  /** The nine moods a user can pick. */
  datatype Mood = Happy | Sad | Motivated | Peaceful | Energetic | Romantic | Mysterious | Adventure | Creative {
    /** The string the program uses for the mood. */
    function Name(): string {
      match this
      case Happy => HAPPY
      case Sad => SAD
      case Motivated => MOTIVATED
      case Peaceful => PEACEFUL
      case Energetic => ENERGETIC
      case Romantic => ROMANTIC
      case Mysterious => MYSTERIOUS
      case Adventure => ADVENTURE
      case Creative => CREATIVE
    }
  }

  const HAPPY: string := "happy"
  const SAD: string := "sad"
  const MOTIVATED: string := "motivated"
  const PEACEFUL: string := "peaceful"
  const ENERGETIC: string := "energetic"
  const ROMANTIC: string := "romantic"
  const MYSTERIOUS: string := "mysterious"
  const ADVENTURE: string := "adventure"
  const CREATIVE: string := "creative"

  /** The moods the image side has data for (search terms, picsum seeds, built-in images). */
  predicate IsImageMood(m: Mood) {
    m == Happy || m == Sad || m == Motivated
  }

  /** Different moods have different names, so comparing names compares moods. */
  lemma MoodNameInjective(m: Mood, n: Mood)
    ensures m.Name() == n.Name() <==> m == n
  {
    if m != n {
      assert m.Name()[..3] != n.Name()[..3] || m.Name()[3..] != n.Name()[3..] || |m.Name()| != |n.Name()|;
    }
  }

  /** The image providers of the settings. */
  datatype ImageProvider = Picsum | Pixabay | Pexels | Unsplash {
    function Id(): string {
      match this
      case Picsum => "picsum"
      case Pixabay => "pixabay"
      case Pexels => "pexels"
      case Unsplash => "unsplash"
    }
  }

  /** The quote (AI) providers of the settings. */
  datatype AiProvider = Free | OpenAi | Anthropic | Google | Azure | Meta | Groq {
    function Id(): string {
      match this
      case Free => "free"
      case OpenAi => "openai"
      case Anthropic => "anthropic"
      case Google => "google"
      case Azure => "azure"
      case Meta => "meta"
      case Groq => "groq"
    }
  }

  datatype ImageUrls = ImageUrls(raw: string, full: string, regular: string, small: string, thumb: string)

  datatype Photographer = Photographer(name: string, username: string)

  /** An image in the normalised shape every provider is turned into (`UnsplashImage`). */
  datatype UnsplashImage = UnsplashImage(id: string, urls: ImageUrls, altDescription: string, user: Photographer)

  /** A quote with an optional author. */
  datatype GeneratedQuote = GeneratedQuote(text: string, author: Option<string>)

  /** One generated wallpaper. */
  datatype WallpaperData = WallpaperData(image: UnsplashImage, quote: GeneratedQuote, mood: Mood)

  /** A wallpaper as kept in the history: the wallpaper plus an id, a creation
      time, an optional title and an optional favourite flag (unset is falsy). */
  datatype SavedWallpaper = SavedWallpaper(
    image: UnsplashImage,
    quote: GeneratedQuote,
    mood: Mood,
    id: string,
    createdAt: string,
    title: Option<string>,
    isFavorite: Option<bool>)
  {
    /** The wallpaper part of the record. */
    function Data(): WallpaperData {
      WallpaperData(image, quote, mood)
    }

    /** JavaScript truthiness of `isFavorite`: unset counts as false. */
    predicate IsFavorite() {
      isFavorite == Some(true)
    }
  }
}
