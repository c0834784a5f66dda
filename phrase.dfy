/**
 * `_extract_phrase` and `_extract_quoted_or_text`: reading the value that
 * follows a keyword, either a quoted span, a run of title-like tokens, or
 * a single (possibly dotted) variable name.
 */
module Phrases {
  import opened Wrappers
  import opened Strings
  import opened Tokens

  /** The part-of-speech tags allowed in a multi-token title or label; `PUNCT` only for labels. */
  function AllowedPos(punct: bool): seq<Pos>
  {
    [Noun, PropN, Adj, Num, Sym, Part, CConj, Adp] + (if punct then [Punct] else [])
  }

  /** The punctuation a label may contain, tested with Python's substring `in`. */
  const LabelPunctuation: string := "().-/:"

  /** Whether a token may continue a multi-token phrase. */
  predicate InRun(t: Token, punct: bool)
  {
    t.pos in AllowedPos(punct) || (punct && IsSubstringOf(t.text, LabelPunctuation))
  }

  /** A token that may start a single-token variable name (possibly `Sepal.Length` tagged `X`). */
  predicate IsNameStart(t: Token)
  {
    IsNameLike(t.pos) || (t.pos == X && '.' in t.text)
  }

  /** A name token at `start` is followed by `"."` and a second name part. */
  predicate DotContinues(doc: Doc, start: nat)
  {
    start + 2 < |doc| && doc[start + 1].text == "." && (IsNameLike(doc[start + 2].pos) || doc[start + 2].pos == X)
  }

  /** The index of the first quote token at or after `k`, or `|doc|` when there is none. */
  function QuoteEnd(doc: Doc, k: nat): (e: nat)
    requires k <= |doc|
    ensures k <= e <= |doc|
    ensures e < |doc| ==> doc[e].isQuote
    ensures forall j :: k <= j < e ==> !doc[j].isQuote
    decreases |doc| - k
  {
    if k == |doc| || doc[k].isQuote then k else QuoteEnd(doc, k + 1)
  }

  /** The end of the longest run of phrase tokens that starts at `k`. */
  function RunEnd(doc: Doc, k: nat, punct: bool): (e: nat)
    requires k <= |doc|
    ensures k <= e <= |doc|
    ensures e < |doc| ==> !InRun(doc[e], punct)
    ensures forall j :: k <= j < e ==> InRun(doc[j], punct)
    decreases |doc| - k
  {
    if k == |doc| || !InRun(doc[k], punct) then k else RunEnd(doc, k + 1, punct)
  }

  /** The token texts `_extract_phrase` collects before joining them. */
  function Collected(doc: Doc, start: nat, multi: bool, punct: bool): seq<string>
  {
    if start >= |doc| then []
    else if doc[start].isQuote then Texts(doc[start + 1..QuoteEnd(doc, start + 1)])
    else if multi then Texts(doc[start..RunEnd(doc, start, punct)])
    else if IsNameStart(doc[start]) then
      [doc[start].text] + (if DotContinues(doc, start) then [".", doc[start + 2].text] else [])
    else []
  }

  /** What `_extract_phrase(doc, start, multi, punct)` returns. */
  function Phrase(doc: Doc, start: nat, multi: bool, punct: bool): Option<string>
  {
    var parts := Collected(doc, start, multi, punct);
    if parts == [] then None else Some(Strip(JoinSpaces(parts), PyWhitespace))
  }

  /**
   * `_extract_quoted_or_text`: both of its branches strip quotes and
   * spaces from the token's own text.
   */
  function QuotedOrText(t: Token): (s: string)
    ensures |s| <= |t.text|
    ensures s != "" ==> s[0] !in QuoteChars && s[|s| - 1] !in QuoteChars
  {
    Strip(t.text, QuoteChars)
  }

  /**
   * `_extract_quoted_or_text` keeps a contiguous slice of the token text,
   * dropping only quotes and spaces before and after it.
   */
  lemma QuotedOrTextIsSlice(t: Token)
    ensures exists a, b :: 0 <= a <= b <= |t.text| && QuotedOrText(t) == t.text[a..b]
              && (forall k :: 0 <= k < a ==> t.text[k] in QuoteChars)
              && (forall k :: b <= k < |t.text| ==> t.text[k] in QuoteChars)
  {
    StripIsSlice(t.text, QuoteChars);
  }

  lemma TextsExtend(doc: Doc, a: nat, k: nat)
    requires a <= k < |doc|
    ensures Texts(doc[a..k + 1]) == Texts(doc[a..k]) + [doc[k].text]
  {
    assert Texts(doc[a..k + 1]) == Texts(doc[a..k]) + [doc[k].text];
  }

  /** The quoted branch: the texts after the opening quote, up to the closing quote or the end. */
  method CollectQuoted(doc: Doc, start: nat) returns (parts: seq<string>)
    requires start < |doc|
    ensures parts == Texts(doc[start + 1..QuoteEnd(doc, start + 1)])
  {
    parts := [];
    var k := start + 1;
    while k < |doc|
      invariant start + 1 <= k <= |doc|
      invariant forall j :: start + 1 <= j < k ==> !doc[j].isQuote
      invariant parts == Texts(doc[start + 1..k])
    {
      if doc[k].isQuote {
        break;
      }
      TextsExtend(doc, start + 1, k);
      parts := parts + [doc[k].text];
      k := k + 1;
    }
    assert k == QuoteEnd(doc, start + 1);
  }

  /** The multi-token branch: the texts of the run of phrase tokens that begins at `start`. */
  method CollectRun(doc: Doc, start: nat, punct: bool) returns (parts: seq<string>)
    requires start <= |doc|
    ensures parts == Texts(doc[start..RunEnd(doc, start, punct)])
  {
    parts := [];
    var k := start;
    while k < |doc|
      invariant start <= k <= |doc|
      invariant forall j :: start <= j < k ==> InRun(doc[j], punct)
      invariant parts == Texts(doc[start..k])
    {
      var allowed := [Noun, PropN, Adj, Num, Sym, Part, CConj, Adp];
      if punct {
        allowed := allowed + [Punct];
      }
      if doc[k].pos in allowed || (punct && IsSubstringOf(doc[k].text, LabelPunctuation)) {
        TextsExtend(doc, start, k);
        parts := parts + [doc[k].text];
      } else {
        // the source stops here whether or not something was collected
        break;
      }
      k := k + 1;
    }
    assert k == RunEnd(doc, start, punct);
  }

  /** `_extract_phrase`: the branch chosen by the first token collects the texts, which are then joined. */
  method ExtractPhrase(doc: Doc, start: nat, multi: bool, punct: bool) returns (r: Option<string>)
    ensures r == Phrase(doc, start, multi, punct)
  {
    var parts: seq<string> := [];
    if start >= |doc| {
      return None;
    }
    var current := doc[start];
    if current.isQuote {
      parts := CollectQuoted(doc, start);
    } else if multi {
      parts := CollectRun(doc, start, punct);
    } else if IsNameLike(current.pos) || (current.pos == X && '.' in current.text) {
      parts := parts + [current.text];
      if start + 2 < |doc| && doc[start + 1].text == "." && (IsNameLike(doc[start + 2].pos) || doc[start + 2].pos == X) {
        parts := parts + ["."];
        parts := parts + [doc[start + 2].text];
      }
    }
    assert parts == Collected(doc, start, multi, punct);
    if parts != [] {
      r := Some(Strip(JoinSpaces(parts), PyWhitespace));
    } else {
      r := None;
    }
  }

  /**
   * The result is `None` exactly when no token was collected, which is
   * always the case past the end of the document; otherwise it is the
   * collected texts joined by single spaces, with surrounding whitespace
   * removed.
   */
  lemma PhraseNoneIffNothingCollected(doc: Doc, start: nat, multi: bool, punct: bool)
    ensures start >= |doc| ==> Phrase(doc, start, multi, punct) == None
    ensures Phrase(doc, start, multi, punct).None? <==> Collected(doc, start, multi, punct) == []
    ensures Phrase(doc, start, multi, punct).Some? ==>
      Phrase(doc, start, multi, punct).value == Strip(JoinSpaces(Collected(doc, start, multi, punct)), PyWhitespace)
  {
  }

  /**
   * When `_extract_phrase` returns `None`, in terms of the tokens: past the
   * end; at a quote that is closed at once or is the last token; in
   * multi-token mode at a token that cannot start a run; in single-token
   * mode at a token that is not a name.
   */
  lemma PhraseNoneCases(doc: Doc, start: nat, multi: bool, punct: bool)
    ensures Phrase(doc, start, multi, punct).None? <==>
      || start >= |doc|
      || (doc[start].isQuote && (start + 1 == |doc| || doc[start + 1].isQuote))
      || (!doc[start].isQuote && multi && !InRun(doc[start], punct))
      || (!doc[start].isQuote && !multi && !IsNameStart(doc[start]))
  {
    if start < |doc| {
      if doc[start].isQuote {
        assert |Texts(doc[start + 1..QuoteEnd(doc, start + 1)])| == QuoteEnd(doc, start + 1) - (start + 1);
      } else if multi {
        assert |Texts(doc[start..RunEnd(doc, start, punct)])| == RunEnd(doc, start, punct) - start;
      }
    }
  }

  /**
   * Starting at a quote, the phrase is made of the tokens strictly
   * between that quote and the next one, or the end of the document when
   * the quote is never closed; in every mode.
   */
  lemma QuotedPhrase(doc: Doc, start: nat, close: nat, multi: bool, punct: bool)
    requires start < close <= |doc| && doc[start].isQuote
    requires forall j :: start < j < close ==> !doc[j].isQuote
    requires close == |doc| || doc[close].isQuote
    ensures Collected(doc, start, multi, punct) == Texts(doc[start + 1..close])
    ensures Phrase(doc, start, multi, punct).None? <==> close == start + 1
  {
  }

  /**
   * In multi-token mode, an unquoted phrase is the longest run of phrase
   * tokens starting at `start`; a first token that cannot start a phrase
   * gives `None`.
   */
  lemma RunPhrase(doc: Doc, start: nat, stop: nat, punct: bool)
    requires start < |doc| && !doc[start].isQuote
    requires start <= stop <= |doc|
    requires forall j :: start <= j < stop ==> InRun(doc[j], punct)
    requires stop == |doc| || !InRun(doc[stop], punct)
    ensures Collected(doc, start, true, punct) == Texts(doc[start..stop])
    ensures Phrase(doc, start, true, punct).None? <==> stop == start
  {
  }

  /**
   * In single-token mode an unquoted phrase has no part, one part, or
   * three: a name token, then `"."` and a second name part exactly when the
   * two tokens after the name are a dot and a name-like token.
   */
  lemma SingleNamePhrase(doc: Doc, start: nat, punct: bool)
    requires start < |doc| && !doc[start].isQuote
    ensures |Collected(doc, start, false, punct)| in {0, 1, 3}
    ensures Collected(doc, start, false, punct) != [] <==> IsNameStart(doc[start])
    ensures Collected(doc, start, false, punct) != [] ==> Collected(doc, start, false, punct)[0] == doc[start].text
    ensures |Collected(doc, start, false, punct)| == 3 ==>
      Collected(doc, start, false, punct) == [doc[start].text, ".", doc[start + 2].text]
    ensures |Collected(doc, start, false, punct)| == 3 <==>
      IsNameStart(doc[start]) && start + 2 < |doc| && doc[start + 1].text == "."
      && (IsNameLike(doc[start + 2].pos) || doc[start + 2].pos == X)
  {
  }
}
