/** The mood table (src/config/moods.ts): display data and the search terms that
    the image providers are queried with. */
module Moods {
  import opened Wrappers
  import opened Types
  import Lists

  datatype MoodConfig = MoodConfig(
    id: Mood,
    labelText: string,
    description: string,
    color: string,
    gradient: string,
    searchTerms: seq<string>,
    icon: string)

  /** `MOODS[mood]`: the table has entries for happy, sad and motivated only. */
  function MoodConfigOf(m: Mood): (c: Option<MoodConfig>)
    ensures c.Some? <==> IsImageMood(m)
    ensures c.Some? ==> c.value.id == m
  {
    match m
    case Happy => Some(MoodConfig(Happy, "Happy", "Bright and joyful vibes", "bg-yellow-400",
      "from-yellow-300 to-orange-400",
      ["happiness", "joy", "bright", "sunny", "colorful", "celebration"], "\U{1F60A}"))
    case Sad => Some(MoodConfig(Sad, "Sad", "Calm and reflective moments", "bg-blue-400",
      "from-blue-300 to-indigo-400",
      ["melancholy", "rain", "contemplative", "peaceful", "quiet", "reflection"], "\U{1F614}"))
    case Motivated => Some(MoodConfig(Motivated, "Motivated", "Energizing and inspiring", "bg-red-400",
      "from-red-300 to-pink-400",
      ["success", "achievement", "motivation", "power", "strength", "determination"], "\U{1F4AA}"))
    case _ => None
  }

  /** The search terms of a configured mood. */
  function SearchTerms(m: Mood): (terms: seq<string>)
    requires IsImageMood(m)
  {
    MoodConfigOf(m).value.searchTerms
  }

  /** Each configured mood has six search terms, all non-empty and no two alike. */
  lemma SearchTermsWellFormed(m: Mood)
    requires IsImageMood(m)
    ensures |SearchTerms(m)| == 6
    ensures forall i | 0 <= i < 6 :: SearchTerms(m)[i] != ""
    ensures forall i, j | 0 <= i < j < 6 :: SearchTerms(m)[i] != SearchTerms(m)[j]
  {
    var t := SearchTerms(m);
    forall i, j | 0 <= i < j < 6 ensures t[i] != t[j] {
      assert t[i][0] != t[j][0] || t[i][1] != t[j][1] || |t[i]| != |t[j]|;
    }
  }

  /** `searchTerms[Math.floor(Math.random() * searchTerms.length)]`: the term sent to
      a provider, always one of the mood's terms. */
  function PickSearchTerm(m: Mood, r: real): (term: string)
    requires IsImageMood(m) && 0.0 <= r < 1.0
    ensures term in SearchTerms(m)
  {
    Lists.Pick(SearchTerms(m), r)
  }
}
