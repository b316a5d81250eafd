/** The custom quote form (src/components/CustomQuoteInput.tsx): the quote,
    author and error fields of the dialog, the validation of its save button,
    and the calls it makes to the `onSave` and `onClose` callbacks. */
module CustomQuoteInput {
  import opened Wrappers
  import opened Text

  const MAX_QUOTE_LENGTH: nat := 200
  const EMPTY_QUOTE: string := "Please enter a quote"
  const QUOTE_TOO_LONG: string := "Quote must be 200 characters or less"

  /** The check of `handleSave`: a quote that is blank after trimming is
      refused first, then one longer than 200 (JavaScript length, measured
      before trimming); `None` lets the save through. */
  function Validate(quote: string): (e: Option<string>)
    ensures e == Some(EMPTY_QUOTE) <==> IsBlank(quote)
    ensures e == Some(QUOTE_TOO_LONG) <==> !IsBlank(quote) && Utf16Length(quote) > MAX_QUOTE_LENGTH
    ensures e.None? <==> !IsBlank(quote) && Utf16Length(quote) <= MAX_QUOTE_LENGTH
  {
    assert EMPTY_QUOTE[0] != QUOTE_TOO_LONG[0];
    if !Truthy(Trim(quote)) then Some(EMPTY_QUOTE)
    else if Utf16Length(quote) > MAX_QUOTE_LENGTH then Some(QUOTE_TOO_LONG)
    else None
  }

  /** `author.trim() || undefined`. */
  function AuthorArgument(author: string): (a: Option<string>)
    ensures a.None? <==> IsBlank(author)
    ensures a.Some? ==> a.value == Trim(author)
  {
    var t := Trim(author);
    if Truthy(t) then Some(t) else None
  }

  /** A quote that passes the check reaches `onSave` trimmed, non-empty and
      within the limit; a given author arrives trimmed and non-empty. */
  lemma SavedArgumentsAreClean(quote: string, author: string)
    requires Validate(quote).None?
    ensures var q := Trim(quote);
      q != [] && Trim(q) == q && Utf16Length(q) <= MAX_QUOTE_LENGTH
    ensures var a := AuthorArgument(author);
      a.Some? ==> a.value != [] && Trim(a.value) == a.value
  {
    TrimShortens(quote);
    TrimIdempotent(quote);
    TrimIdempotent(author);
  }

  /** The empty check comes first: a whitespace quote of any length, however
      far over the limit, reports a missing quote. */
  lemma LongBlankQuoteIsEmpty(n: nat)
    ensures Validate(seq(n, _ => ' ')) == Some(EMPTY_QUOTE)
  {
  }

  /** Only the length before trimming counts: 201 characters with a space at
      the end are refused although the trimmed text would fit. */
  lemma LengthIsMeasuredUntrimmed(body: string)
    requires |body| == 200 && forall i | 0 <= i < |body| :: 'a' <= body[i] <= 'z'
    ensures Validate(body + " ") == Some(QUOTE_TOO_LONG)
    ensures Validate(body) == None
  {
    var s := body + " ";
    Utf16LengthBmp(s);
    Utf16LengthBmp(body);
    assert !IsJsSpace(s[0]);
    assert !IsJsSpace(body[0]);
  }

  /** A call the form makes to its owner, in order. */
  datatype Call = OnSave(quote: string, author: Option<string>) | OnClose

  /** The state of one `CustomQuoteInput` dialog; `calls` records the callbacks
      it has made. */
  class QuoteForm {
    var quote: string
    var author: string
    var error: string
    var calls: seq<Call>

    /** Every field is empty. */
    predicate Cleared()
      reads this
    {
      quote == [] && author == [] && error == []
    }

    constructor ()
      ensures Cleared() && calls == []
    {
      quote := "";
      author := "";
      error := "";
      calls := [];
    }

    /** `handleSave`: a refused quote only sets the error; an accepted one calls
        `onSave` with the trimmed arguments, clears the form and then calls
        `onClose`. */
    method HandleSave()
      modifies this
      ensures var e := Validate(old(quote));
        if e.Some? then
          error == e.value && quote == old(quote) && author == old(author) && calls == old(calls)
        else
          Cleared() && calls == old(calls) + [OnSave(Trim(old(quote)), AuthorArgument(old(author))), OnClose]
    {
      if !Truthy(Trim(quote)) {
        error := EMPTY_QUOTE;
        return;
      }
      if Utf16Length(quote) > MAX_QUOTE_LENGTH {
        error := QUOTE_TOO_LONG;
        return;
      }
      calls := calls + [OnSave(Trim(quote), AuthorArgument(author))];
      quote := "";
      author := "";
      error := "";
      calls := calls + [OnClose];
    }

    /** `handleClose`: the form is cleared and `onClose` called, nothing saved. */
    method HandleClose()
      modifies this
      ensures Cleared() && calls == old(calls) + [OnClose]
    {
      quote := "";
      author := "";
      error := "";
      calls := calls + [OnClose];
    }

    /** The quote field's `onChange`: the new text, and the error cleared. */
    method EditQuote(text: string)
      modifies this
      ensures quote == text && error == []
      ensures author == old(author) && calls == old(calls)
    {
      quote := text;
      error := "";
    }

    /** The author field's `onChange`: the new text; the error stays. */
    method EditAuthor(text: string)
      modifies this
      ensures author == text
      ensures quote == old(quote) && error == old(error) && calls == old(calls)
    {
      author := text;
    }
  }
}
