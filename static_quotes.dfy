/** The static quotes of the quote hook (src/hooks/useOpenAI.ts): three per mood,
    the answer of every path that does not end with a provider's quote. */
module StaticQuotes {
  import opened Wrappers
  import opened Types
  import Lists

  const HAPPY_QUOTES: seq<GeneratedQuote> := [
    GeneratedQuote("Happiness is not something ready made. It comes from your own actions.", Some("Dalai Lama")),
    GeneratedQuote("The secret of happiness is freedom, the secret of freedom is courage.", Some("Carrie Jones")),
    GeneratedQuote("Happiness is when what you think, what you say, and what you do are in harmony.", Some("Mahatma Gandhi"))]
  const SAD_QUOTES: seq<GeneratedQuote> := [
    GeneratedQuote("The wound is the place where the Light enters you.", Some("Rumi")),
    GeneratedQuote("It's okay to not be okay, as long as you don't give up.", Some("Unknown")),
    GeneratedQuote("Every storm runs out of rain.", Some("Maya Angelou"))]
  const MOTIVATED_QUOTES: seq<GeneratedQuote> := [
    GeneratedQuote("The future belongs to those who believe in the beauty of their dreams.", Some("Eleanor Roosevelt")),
    GeneratedQuote("Success is not final, failure is not fatal: it is the courage to continue that counts.", Some("Winston Churchill")),
    GeneratedQuote("Believe you can and you're halfway there.", Some("Theodore Roosevelt"))]
  const PEACEFUL_QUOTES: seq<GeneratedQuote> := [
    GeneratedQuote("Peace cannot be kept by force; it can only be achieved by understanding.", Some("Albert Einstein")),
    GeneratedQuote("In the midst of winter, I found there was, within me, an invincible summer.", Some("Albert Camus")),
    GeneratedQuote("Peace comes from within. Do not seek it without.", Some("Buddha"))]
  const ENERGETIC_QUOTES: seq<GeneratedQuote> := [
    GeneratedQuote("Energy and persistence conquer all things.", Some("Benjamin Franklin")),
    GeneratedQuote("The way to get started is to quit talking and begin doing.", Some("Walt Disney")),
    GeneratedQuote("Act as if what you do makes a difference. It does.", Some("William James"))]
  const ROMANTIC_QUOTES: seq<GeneratedQuote> := [
    GeneratedQuote("Being deeply loved by someone gives you strength, while loving someone deeply gives you courage.", Some("Lao Tzu")),
    GeneratedQuote("Love is not about how many days, months, or years you have been together. It's about how much you love each other every day.", Some("Unknown")),
    GeneratedQuote("The best thing to hold onto in life is each other.", Some("Audrey Hepburn"))]
  const MYSTERIOUS_QUOTES: seq<GeneratedQuote> := [
    GeneratedQuote("The most beautiful thing we can experience is the mysterious.", Some("Albert Einstein")),
    GeneratedQuote("Mystery creates wonder and wonder is the basis of man's desire to understand.", Some("Neil Armstrong")),
    GeneratedQuote("In the depths of winter, I finally learned that within me there lay an invincible summer.", Some("Albert Camus"))]
  const ADVENTURE_QUOTES: seq<GeneratedQuote> := [
    GeneratedQuote("Adventure is not outside man; it is within.", Some("George Eliot")),
    GeneratedQuote("Life is either a daring adventure or nothing at all.", Some("Helen Keller")),
    GeneratedQuote("The biggest adventure you can take is to live the life of your dreams.", Some("Oprah Winfrey"))]
  const CREATIVE_QUOTES: seq<GeneratedQuote> := [
    GeneratedQuote("Creativity takes courage.", Some("Henri Matisse")),
    GeneratedQuote("The creative adult is the child who survived.", Some("Ursula K. Le Guin")),
    GeneratedQuote("Imagination is more important than knowledge.", Some("Albert Einstein"))]

  /** `fallbackQuotes[mood]`: three quotes for each of the nine moods. */
  function FallbackQuotes(m: Mood): (quotes: seq<GeneratedQuote>)
    ensures |quotes| == 3
  {
    match m
    case Happy => HAPPY_QUOTES
    case Sad => SAD_QUOTES
    case Motivated => MOTIVATED_QUOTES
    case Peaceful => PEACEFUL_QUOTES
    case Energetic => ENERGETIC_QUOTES
    case Romantic => ROMANTIC_QUOTES
    case Mysterious => MYSTERIOUS_QUOTES
    case Adventure => ADVENTURE_QUOTES
    case Creative => CREATIVE_QUOTES
  }

  /** Every static quote has a text and names an author. */
  lemma FallbackQuotesWellFormed(m: Mood)
    ensures forall q | q in FallbackQuotes(m) :: q.text != [] && q.author.Some? && q.author.value != []
  {
  }

  /** `getFallbackQuote(mood)`: the quote at `floor(r * 3)`, always one of the mood's three. */
  function FallbackQuote(m: Mood, r: real): (q: GeneratedQuote)
    requires 0.0 <= r < 1.0
    ensures q in FallbackQuotes(m)
  {
    Lists.Pick(FallbackQuotes(m), r)
  }
}
