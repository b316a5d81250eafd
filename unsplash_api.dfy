/** The single-provider image hook (src/hooks/useUnsplashAPI.ts): one request to
    Unsplash's random-photo endpoint when a key is available, a built-in image
    otherwise or when the request fails. The reply is an input outcome, the
    random draw of the search term an input number. */
module UnsplashApi {
  import opened Wrappers
  import opened Types
  import opened Text
  import Moods
  import ImageApi

  /** The check is for truthiness only, so a whitespace key sends a request here,
      while the multi-provider hook treats the same key as missing. */
  lemma WhitespaceKeyIsSent(k: string)
    requires k != [] && IsBlank(k)
    ensures TruthyKey(OrElse(Some(k), None))
    ensures !HasUsableKey(Some(k))
  {
    UsableKeyIsNotBlank(Some(k));
  }

  // ---------------------------------------------------------------------
  // The request

  const RANDOM_PHOTO: string := "https://api.unsplash.com/photos/random?query="
  const LANDSCAPE: string := "&orientation=landscape&w=1920&h=1080"
  const CLIENT_ID: string := "Client-ID "

  /** The URL and the `Authorization` header of the one request. */
  datatype UnsplashRequest = UnsplashRequest(url: string, authorization: string)

  /** The request for a mood: a random landscape photo for one of the mood's
      search terms, authorised with the key as a client id. */
  function RandomPhotoRequest(m: Mood, r: real, key: string): (req: UnsplashRequest)
    requires IsImageMood(m) && 0.0 <= r < 1.0
    ensures exists term | term in Moods.SearchTerms(m) :: req.url == RANDOM_PHOTO + term + LANDSCAPE
    ensures StartsWith(req.authorization, CLIENT_ID) && req.authorization[|CLIENT_ID|..] == key
  {
    var term := Moods.PickSearchTerm(m, r);
    var req := UnsplashRequest(RANDOM_PHOTO + term + LANDSCAPE, CLIENT_ID + key);
    assert req.authorization[..|CLIENT_ID|] == CLIENT_ID;
    req
  }

  // ---------------------------------------------------------------------
  // The built-in images

  const UNSPLASH_CREDIT: Photographer := Photographer("Unsplash", "unsplash")

  /** The photo behind each built-in image; motivated reuses the happy photo. */
  function FallbackPhoto(m: Mood): string
    requires IsImageMood(m)
  {
    match m
    case Happy => ImageApi.HAPPY_PHOTO
    case Sad => ImageApi.SAD_PHOTO
    case Motivated => ImageApi.HAPPY_PHOTO
  }

  /** `getFallbackImage(mood)`: "fallback-<mood>", credited to Unsplash. */
  function FallbackImage(m: Mood): (img: UnsplashImage)
    requires IsImageMood(m)
    ensures img.id == ImageApi.FALLBACK_PREFIX + m.Name()
    ensures img.user == UNSPLASH_CREDIT
  {
    UnsplashImage(ImageApi.FALLBACK_PREFIX + m.Name(), ImageApi.FallbackUrls(FallbackPhoto(m)),
      ImageApi.FallbackAlt(m), UNSPLASH_CREDIT)
  }

  /** The built-in motivated image shows the happy image's picture under its own
      id and description; happy and sad show different pictures. */
  lemma MotivatedReusesHappyUrls()
    ensures FallbackImage(Motivated).urls == FallbackImage(Happy).urls
    ensures FallbackImage(Motivated).id != FallbackImage(Happy).id
    ensures FallbackImage(Motivated).altDescription != FallbackImage(Happy).altDescription
    ensures FallbackImage(Happy).urls.raw != FallbackImage(Sad).urls.raw
  {
    MoodNameInjective(Motivated, Happy);
    assert FallbackImage(Motivated).altDescription[0] != FallbackImage(Happy).altDescription[0];
    ImageApi.FallbackImageShape(Happy, Sad);
  }

  /** Against the multi-provider hook's built-in images: the same ids and
      descriptions, the same pictures for happy and sad, but a different credit. */
  lemma AgreesWithImageApiFallback(m: Mood)
    requires IsImageMood(m)
    ensures FallbackImage(m).id == ImageApi.FallbackImage(m).id
    ensures FallbackImage(m).altDescription == ImageApi.FallbackImage(m).altDescription
    ensures m != Motivated <==> FallbackImage(m).urls == ImageApi.FallbackImage(m).urls
    ensures FallbackImage(m).user != ImageApi.FallbackImage(m).user
  {
    if m == Motivated {
      ImageApi.FallbackImageShape(Happy, Motivated);
    }
    assert UNSPLASH_CREDIT.name[0] != ImageApi.FREE_IMAGES.name[0];
  }

  // ---------------------------------------------------------------------
  // The request's outcome

  const FAILED_TO_FETCH: string := "Failed to fetch image"
  const FAILED_STATUS: string := "Failed to fetch image: "

  /** The advisory the catch block sets: the thrown error's message, which for a
      status that is not ok is "Failed to fetch image: <status>", or "Failed to
      fetch image" when the thrown value is not an `Error`. */
  function FailureMessage(reply: Reply<UnsplashImage>): (msg: string)
    requires !reply.Delivered?
    ensures reply.NotOk? ==> StartsWith(msg, FAILED_STATUS) && msg[|FAILED_STATUS|..] == NatToString(reply.status)
    ensures reply.Rejected? && reply.error.IsErrorObject() ==> msg == reply.error.message
    ensures reply == Rejected(NonError) ==> msg == FAILED_TO_FETCH
  {
    match reply
    case NotOk(s) =>
      var msg := FAILED_STATUS + NatToString(s);
      assert msg[..|FAILED_STATUS|] == FAILED_STATUS;
      msg
    case Rejected(e) => if e.IsErrorObject() then e.message else FAILED_TO_FETCH
  }

  /** A status advisory names the status, so two statuses give two advisories,
      and none of them is the generic one. */
  lemma StatusMessagesDiffer(s: nat, t: nat)
    ensures FailureMessage(NotOk(s)) != FAILED_TO_FETCH
    ensures FailureMessage(NotOk(s)) == FailureMessage(NotOk(t)) <==> s == t
  {
    if FailureMessage(NotOk(s)) == FailureMessage(NotOk(t)) {
      NatToStringInjective(s, t);
    }
  }

  /** What one call of `fetchImageByMood` ends with: the image, the `error`
      advisory and the request it sent, if any. */
  datatype Outcome = Outcome(image: UnsplashImage, error: Option<string>, request: Option<UnsplashRequest>)

  /** The whole call for keys `apiKey` and `envKey`, draw `r` and reply `reply`
      (`error` is the value before the call, kept when no request is made). */
  function Fetch(apiKey: Option<string>, envKey: Option<string>, error: Option<string>,
                 m: Mood, r: real, reply: Reply<UnsplashImage>): (o: Outcome)
    requires IsImageMood(m) && 0.0 <= r < 1.0
    ensures o.request.Some? <==> TruthyKey(apiKey) || TruthyKey(envKey)
    ensures o.request.None? ==> o.image == FallbackImage(m) && o.error == error
    ensures o.request.Some? && reply.Delivered? ==> o.image == reply.body && o.error == None
    ensures o.request.Some? && !reply.Delivered? ==> o.image == FallbackImage(m) && o.error == Some(FailureMessage(reply))
  {
    var key := OrElse(apiKey, envKey);
    if !TruthyKey(key) then Outcome(FallbackImage(m), error, None)
    else
      var request := Some(RandomPhotoRequest(m, r, key.value));
      match reply
      case Delivered(body) => Outcome(body, None, request)
      case _ => Outcome(FallbackImage(m), Some(FailureMessage(reply)), request)
  }

  /** When the request fails, the image is the mood's built-in one: it depends
      neither on how the call failed nor on whether a key was there at all. */
  lemma ImageSource(apiKey: Option<string>, envKey: Option<string>, e1: Option<string>, e2: Option<string>,
                    m: Mood, r: real, reply1: Reply<UnsplashImage>, reply2: Reply<UnsplashImage>)
    requires IsImageMood(m) && 0.0 <= r < 1.0
    requires !reply1.Delivered? && !reply2.Delivered?
    ensures Fetch(apiKey, envKey, e1, m, r, reply1).image == Fetch(apiKey, envKey, e2, m, r, reply2).image
    ensures Fetch(apiKey, envKey, e1, m, r, reply1).image == Fetch(None, None, e1, m, r, reply1).image
  {
  }

  /** The state of one `useUnsplashAPI(apiKey)` hook; `envKey` is the build-time key. */
  class UnsplashApiHook {
    const apiKey: Option<string>
    const envKey: Option<string>
    var loading: bool
    var error: Option<string>

    /** Nothing is loading and there is no error. */
    constructor (apiKey: Option<string>, envKey: Option<string>)
      ensures this.apiKey == apiKey && this.envKey == envKey
      ensures !loading && error == None
    {
      this.apiKey := apiKey;
      this.envKey := envKey;
      loading := false;
      error := None;
    }

    /** `fetchImageByMood(mood)`: without a key, the built-in image and no state
        change; with one, `error` cleared, the request sent, and `loading` false
        at the end on every path. */
    method FetchImageByMood(m: Mood, r: real, reply: Reply<UnsplashImage>)
      returns (image: UnsplashImage, request: Option<UnsplashRequest>)
      requires IsImageMood(m) && 0.0 <= r < 1.0
      modifies this
      ensures var o := Fetch(apiKey, envKey, old(error), m, r, reply);
        image == o.image && error == o.error && request == o.request
      ensures request.None? ==> loading == old(loading)
      ensures request.Some? ==> !loading
    {
      var key := OrElse(apiKey, envKey);
      if !TruthyKey(key) {
        return FallbackImage(m), None;
      }
      loading := true;
      error := None;
      request := Some(RandomPhotoRequest(m, r, key.value));
      if reply.Delivered? {
        image := reply.body;
      } else {
        error := Some(FailureMessage(reply));
        image := FallbackImage(m);
      }
      loading := false;
    }
  }
}
