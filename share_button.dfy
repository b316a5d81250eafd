/** The share button (src/components/ShareButton.tsx): the share text, the
    share link's query parameters, the copy-link fallback chain (Clipboard API,
    then the legacy copy command, then a dialog showing the link) and the
    dispatch of the share menu. The browser facilities are inputs: how the
    Clipboard API and the copy command answer, whether native sharing exists,
    and the two percent-encoders. */
module ShareButton {
  import opened Wrappers
  import opened Types
  import opened Text

  // ---------------------------------------------------------------------
  // The share text

  const CHECK_OUT: string := "Check out this "
  const CREATED: string := " wallpaper I created! \""
  const CLOSE_QUOTE: string := "\" "
  const CREDIT: string := "- "

  /** `generateShareText()`: the mood and the quoted text, then "- <author>"
      when the author is truthy. */
  function ShareText(data: WallpaperData): (t: string)
    ensures StartsWith(t, CHECK_OUT + data.mood.Name() + CREATED + data.quote.text + CLOSE_QUOTE)
  {
    var head := CHECK_OUT + data.mood.Name() + CREATED + data.quote.text + CLOSE_QUOTE;
    var t := head + (if TruthyKey(data.quote.author) then CREDIT + data.quote.author.value else "");
    assert t[..|head|] == head;
    t
  }

  /** The credit is the whole rest of the text when there is an author, and
      there is no rest at all otherwise. */
  lemma ShareTextCredit(data: WallpaperData)
    ensures var head := CHECK_OUT + data.mood.Name() + CREATED + data.quote.text + CLOSE_QUOTE;
      var t := ShareText(data);
      && (TruthyKey(data.quote.author) ==> t[|head|..] == CREDIT + data.quote.author.value)
      && (!TruthyKey(data.quote.author) ==> t == head)
  {
  }

  // ---------------------------------------------------------------------
  // The share link

  const MOOD_PARAM: string := "mood"
  const QUOTE_PARAM: string := "quote"
  const AUTHOR_PARAM: string := "author"
  const IMAGE_PARAM: string := "image"

  /** The entries given to `URLSearchParams`, in insertion order: the author
      entry is spread in only when the author is truthy. */
  function ShareParams(data: WallpaperData): (params: seq<(string, string)>)
    ensures TruthyKey(data.quote.author) ==> |params| == 4
    ensures !TruthyKey(data.quote.author) ==> |params| == 3
    ensures params[0] == (MOOD_PARAM, data.mood.Name()) && params[1] == (QUOTE_PARAM, data.quote.text)
    ensures params[|params| - 1] == (IMAGE_PARAM, data.image.id)
    ensures |params| == 4 ==> params[2] == (AUTHOR_PARAM, data.quote.author.value)
  {
    [(MOOD_PARAM, data.mood.Name()), (QUOTE_PARAM, data.quote.text)]
    + (if TruthyKey(data.quote.author) then [(AUTHOR_PARAM, data.quote.author.value)] else [])
    + [(IMAGE_PARAM, data.image.id)]
  }

  /** The parameter names in order: mood, quote, author (only with an author),
      image; no name appears twice. */
  lemma ShareParamNames(data: WallpaperData)
    ensures var names := seq(|ShareParams(data)|, i requires 0 <= i < |ShareParams(data)| => ShareParams(data)[i].0);
      && (TruthyKey(data.quote.author) ==> names == [MOOD_PARAM, QUOTE_PARAM, AUTHOR_PARAM, IMAGE_PARAM])
      && (!TruthyKey(data.quote.author) ==> names == [MOOD_PARAM, QUOTE_PARAM, IMAGE_PARAM])
      && (forall i, j | 0 <= i < j < |names| :: names[i] != names[j])
  {
    var names := seq(|ShareParams(data)|, i requires 0 <= i < |ShareParams(data)| => ShareParams(data)[i].0);
    assert MOOD_PARAM[0] != QUOTE_PARAM[0] && MOOD_PARAM[0] != AUTHOR_PARAM[0] && MOOD_PARAM[0] != IMAGE_PARAM[0];
    assert QUOTE_PARAM[0] != AUTHOR_PARAM[0] && QUOTE_PARAM[0] != IMAGE_PARAM[0] && AUTHOR_PARAM[0] != IMAGE_PARAM[0];
  }

  /** An encoder as `URLSearchParams` uses it: its output never holds the
      separators '&' and '=', which it percent-encodes. */
  ghost predicate SafeEncoder(enc: string -> string) {
    forall s :: '&' !in enc(s) && '=' !in enc(s)
  }

  /** One serialized entry, `name=value`. */
  function Pair(p: (string, string), enc: string -> string): string {
    enc(p.0) + "=" + enc(p.1)
  }

  /** `params.toString()`: the serialized entries joined by '&'. */
  function Query(params: seq<(string, string)>, enc: string -> string): string
    decreases |params|
  {
    if params == [] then ""
    else if |params| == 1 then Pair(params[0], enc)
    else Pair(params[0], enc) + "&" + Query(params[1..], enc)
  }

  /** `generateShareUrl()`: the page origin, '?' and the query. */
  function ShareUrl(origin: string, data: WallpaperData, enc: string -> string): (url: string)
    ensures StartsWith(url, origin + "?")
  {
    var head := origin + "?";
    var url := head + Query(ShareParams(data), enc);
    assert url[..|head|] == head;
    url
  }

  /** Splitting a text at every '&' (at least one piece). */
  function Split(s: string): (parts: seq<string>)
    ensures |parts| >= 1
    decreases |s|
  {
    if s == [] then [""]
    else if s[0] == '&' then [""] + Split(s[1..])
    else
      var rest := Split(s[1..]);
      [[s[0]] + rest[0]] + rest[1..]
  }

  /** A text without '&' is one piece. */
  lemma {:induction false} SplitWhole(s: string)
    requires '&' !in s
    ensures Split(s) == [s]
    decreases |s|
  {
    if s != [] {
      SplitWhole(s[1..]);
      assert [s[0]] + s[1..] == s;
    }
  }

  /** Splitting at a separator after a piece without '&' splits off that piece. */
  lemma {:induction false} SplitAfter(a: string, b: string)
    requires '&' !in a
    ensures Split(a + "&" + b) == [a] + Split(b)
    decreases |a|
  {
    if a == [] {
      assert a + "&" + b == ['&'] + b;
      assert (['&'] + b)[1..] == b;
    } else {
      var s := a + "&" + b;
      assert s[0] == a[0];
      assert s[1..] == a[1..] + "&" + b;
      SplitAfter(a[1..], b);
      assert [a[0]] + a[1..] == a;
    }
  }

  /** The query splits back at '&' into the serialized entries, in order: the
      link carries every parameter, in insertion order, as its own entry. */
  lemma {:induction false} QuerySplitsIntoPairs(params: seq<(string, string)>, enc: string -> string)
    requires params != [] && SafeEncoder(enc)
    ensures Split(Query(params, enc)) == seq(|params|, i requires 0 <= i < |params| => Pair(params[i], enc))
    decreases |params|
  {
    var p := Pair(params[0], enc);
    assert '&' !in p by {
      assert '&' !in enc(params[0].0) && '&' !in enc(params[0].1);
    }
    if |params| == 1 {
      SplitWhole(p);
    } else {
      SplitAfter(p, Query(params[1..], enc));
      QuerySplitsIntoPairs(params[1..], enc);
    }
  }

  // ---------------------------------------------------------------------
  // Copying the link

  /** How `navigator.clipboard.writeText` behaves: missing, rejecting, or
      resolving. */
  datatype ClipboardApi = NoClipboardApi | Rejects | Resolves

  /** How `document.execCommand('copy')` behaves: it returns a flag or throws. */
  datatype CopyCommand = Returns(ok: bool) | Throws

  /** Which step of the chain ends a copy. */
  datatype CopyRoute = ByClipboardApi | ByCopyCommand | ManualCopy

  /** The step that succeeds first; the dialog only when both fail. */
  function CopyRouteOf(api: ClipboardApi, command: CopyCommand): (route: CopyRoute)
    ensures route == ByClipboardApi <==> api == Resolves
    ensures route == ManualCopy <==> api != Resolves && command != Returns(true)
  {
    if api == Resolves then ByClipboardApi
    else if command == Returns(true) then ByCopyCommand
    else ManualCopy
  }

  const MANUAL_COPY: string := "Unable to copy automatically. Link will be displayed for manual copying."

  /** A window opened by `window.open(url, '_blank')`, and a native share. */
  datatype Effect = OpenWindow(url: string) | NativeShare(title: string, text: string, url: string)

  const SHARE_TITLE: string := "My Mood Wallpaper"
  const TWITTER_INTENT: string := "https://twitter.com/intent/tweet?text="
  const URL_ARG: string := "&url="
  const FACEBOOK_SHARER: string := "https://www.facebook.com/sharer/sharer.php?u="
  const QUOTE_ARG: string := "&quote="

  /** Where the share menu sends a wallpaper. */
  datatype ShareRoute = ToTwitter | ToFacebook | ToNativeShare | ToCopyLink

  /** The `if` chain of `handleShare`: the platform first, then native sharing
      when the browser has it, else the copy link. */
  function ShareRouteOf(platform: Option<string>, nativeShare: bool): (route: ShareRoute)
    ensures route == ToTwitter <==> platform == Some("twitter")
    ensures route == ToFacebook <==> platform == Some("facebook")
    ensures route == ToNativeShare <==> platform !in {Some("twitter"), Some("facebook")} && nativeShare
  {
    if platform == Some("twitter") then ToTwitter
    else if platform == Some("facebook") then ToFacebook
    else if nativeShare then ToNativeShare
    else ToCopyLink
  }

  /** The state of one `ShareButton`, with what it did to the page: the
      clipboard's content, the temporary text areas left in the document body,
      and the windows and native shares it started. */
  class ShareButtonState {
    var showOptions: bool
    var copied: bool
    var copyError: Option<string>
    var showLinkModal: bool
    var clipboard: Option<string>
    var strayTextAreas: nat
    var effects: seq<Effect>

    constructor (clipboard: Option<string>)
      ensures !showOptions && !copied && copyError == None && !showLinkModal
      ensures this.clipboard == clipboard && strayTextAreas == 0 && effects == []
    {
      showOptions := false;
      copied := false;
      copyError := None;
      showLinkModal := false;
      this.clipboard := clipboard;
      strayTextAreas := 0;
      effects := [];
    }

    /** `fallbackCopyToClipboard(text)`: copies through a temporary text area,
        which is removed again whether the command returns or throws; true
        only when the command reports success. */
    method LegacyCopy(text: string, command: CopyCommand) returns (ok: bool)
      modifies this
      ensures ok <==> command == Returns(true)
      ensures clipboard == if ok then Some(text) else old(clipboard)
      ensures strayTextAreas == old(strayTextAreas)
      ensures showOptions == old(showOptions) && copied == old(copied) && copyError == old(copyError)
      ensures showLinkModal == old(showLinkModal) && effects == old(effects)
    {
      strayTextAreas := strayTextAreas + 1;
      match command {
        case Returns(successful) =>
          if successful {
            clipboard := Some(text);
          }
          strayTextAreas := strayTextAreas - 1;
          ok := successful;
        case Throws =>
          strayTextAreas := strayTextAreas - 1;
          ok := false;
      }
    }

    /** `handleCopyLink()`: the error and the copied flag are reset, then the
        Clipboard API, then the legacy copy; only when both fail is the error
        set and the dialog with the link shown. */
    method HandleCopyLink(url: string, api: ClipboardApi, command: CopyCommand)
      modifies this
      ensures var route := CopyRouteOf(api, command);
        && (copied <==> route != ManualCopy)
        && clipboard == (if route != ManualCopy then Some(url) else old(clipboard))
        && copyError == (if route == ManualCopy then Some(MANUAL_COPY) else None)
        && showLinkModal == (route == ManualCopy || old(showLinkModal))
      ensures strayTextAreas == old(strayTextAreas)
      ensures showOptions == old(showOptions) && effects == old(effects)
    {
      copyError := None;
      copied := false;
      if api != NoClipboardApi {
        if api == Resolves {
          clipboard := Some(url);
          copied := true;
          return;
        }
      }
      var ok := LegacyCopy(url, command);
      if ok {
        copied := true;
        return;
      }
      copyError := Some(MANUAL_COPY);
      showLinkModal := true;
    }

    /** The two-second timer after a copy: the "copied" mark goes away. */
    method CopiedTimerFires()
      modifies this
      ensures !copied
      ensures copyError == old(copyError) && showLinkModal == old(showLinkModal) && clipboard == old(clipboard)
      ensures showOptions == old(showOptions) && strayTextAreas == old(strayTextAreas) && effects == old(effects)
    {
      copied := false;
    }

    /** `handleShare(platform)`: a window for twitter or facebook, else the
        native share sheet (a rejection is swallowed), else the copy link; the
        options menu is closed afterwards on every route. `component` is
        `encodeURIComponent`. */
    method HandleShare(platform: Option<string>, data: WallpaperData, origin: string,
                       enc: string -> string, component: string -> string,
                       nativeShare: bool, api: ClipboardApi, command: CopyCommand)
      modifies this
      ensures !showOptions
      ensures var text := ShareText(data);
        var url := ShareUrl(origin, data, enc);
        match ShareRouteOf(platform, nativeShare)
        case ToTwitter =>
          effects == old(effects) + [OpenWindow(TWITTER_INTENT + component(text) + URL_ARG + component(url))]
        case ToFacebook =>
          effects == old(effects) + [OpenWindow(FACEBOOK_SHARER + component(url) + QUOTE_ARG + component(text))]
        case ToNativeShare =>
          effects == old(effects) + [NativeShare(SHARE_TITLE, text, url)]
        case ToCopyLink =>
          var route := CopyRouteOf(api, command);
          && effects == old(effects)
          && (copied <==> route != ManualCopy)
          && clipboard == (if route != ManualCopy then Some(url) else old(clipboard))
          && copyError == (if route == ManualCopy then Some(MANUAL_COPY) else None)
          && showLinkModal == (route == ManualCopy || old(showLinkModal))
      ensures ShareRouteOf(platform, nativeShare) != ToCopyLink ==>
        copied == old(copied) && copyError == old(copyError) && showLinkModal == old(showLinkModal) && clipboard == old(clipboard)
      ensures strayTextAreas == old(strayTextAreas)
    {
      var shareText := ShareText(data);
      var shareUrl := ShareUrl(origin, data, enc);
      if platform == Some("twitter") {
        effects := effects + [OpenWindow(TWITTER_INTENT + component(shareText) + URL_ARG + component(shareUrl))];
      } else if platform == Some("facebook") {
        effects := effects + [OpenWindow(FACEBOOK_SHARER + component(shareUrl) + QUOTE_ARG + component(shareText))];
      } else if nativeShare {
        effects := effects + [NativeShare(SHARE_TITLE, shareText, shareUrl)];
      } else {
        HandleCopyLink(shareUrl, api, command);
      }
      showOptions := false;
    }
  }
}
