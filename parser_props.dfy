/**
 * Properties of `parse_description` as a whole: which token fixes the
 * plot type, which rule supplies the data source, and the write-once
 * behaviour of the main loop.
 */
module ParserProperties {
  import opened Wrappers
  import opened Strings
  import opened Tokens
  import opened PlotInfos
  import opened Rules
  import opened DescriptionParser

  /** Token `k` is the first token that names a plot type. */
  predicate IsFirstKeyword(doc: Doc, k: nat)
  {
    && k < |doc| && TokenPlotType(doc[k]).Some?
    && forall j :: 0 <= j < k ==> TokenPlotType(doc[j]).None?
  }

  /** Every geom name is a non-empty string with no quote or space at its ends. */
  lemma GeomsAreClean(g: Option<string>)
    requires g.Some? && g.value in PlotTypeGeoms.Values
    ensures Truthy(g) && IsCleanValue(g)
  {
    var key :| key in PlotTypeGeoms && PlotTypeGeoms[key] == g.value;
    assert key in {"scatter", "bar", "histogram", "line"};
  }

  /** Before any keyword token, the plot type is still unset. */
  lemma {:induction false} PlotTypeBeforeKeyword(doc: Doc, n: nat)
    requires n <= |doc|
    requires forall j :: 0 <= j < n ==> TokenPlotType(doc[j]).None?
    ensures PlotTypeScan(doc, None, n) == None
  {
    if n > 0 {
      PlotTypeBeforeKeyword(doc, n - 1);
    }
  }

  /**
   * Once the first keyword token has been visited, the plot type is its
   * geom, and no later keyword token overwrites it.
   */
  lemma {:induction false} PlotTypeIsFirstKeyword(doc: Doc, k: nat, n: nat)
    requires IsFirstKeyword(doc, k) && k < n <= |doc|
    ensures PlotTypeScan(doc, None, n) == TokenPlotType(doc[k])
  {
    if n == k + 1 {
      PlotTypeBeforeKeyword(doc, k);
    } else {
      PlotTypeIsFirstKeyword(doc, k, n - 1);
      GeomsAreClean(TokenPlotType(doc[k]));
    }
  }

  /** With no keyword token anywhere, the plot type stays unset. */
  lemma NoKeywordNoPlotType(doc: Doc)
    requires forall j :: 0 <= j < |doc| ==> TokenPlotType(doc[j]).None?
    ensures PlotTypeScan(doc, None, |doc|) == None
  {
    PlotTypeBeforeKeyword(doc, |doc|);
  }

  /** One iteration of the main loop keeps every filled field. */
  lemma ScanStep(doc: Doc, info: PlotInfo, n: nat)
    requires WellFormed(doc) && 0 < n <= |doc|
    ensures KeepsFilled(RuleScan(doc, info, n - 1), RuleScan(doc, info, n))
  {
    var prev := RuleScan(doc, info, n - 1);
    assert RuleScan(doc, info, n) == Step(doc, n - 1, prev);
  }

  /** Every record keeps its own filled fields. */
  lemma KeepsFilledRefl(a: PlotInfo)
    ensures KeepsFilled(a, a)
  {
  }

  /** Keeping filled fields is transitive. */
  lemma KeepsFilledTrans(a: PlotInfo, b: PlotInfo, c: PlotInfo)
    requires KeepsFilled(a, b) && KeepsFilled(b, c)
    ensures KeepsFilled(a, c)
  {
  }

  /** Along a sequence of records where each keeps the filled fields of the one before, any later one keeps any earlier one's. */
  lemma {:induction false} ChainKeepsFilled(trace: seq<PlotInfo>, m: nat, n: nat)
    requires forall k :: 0 < k < |trace| ==> KeepsFilled(trace[k - 1], trace[k])
    requires m <= n < |trace|
    ensures KeepsFilled(trace[m], trace[n])
  {
    if m == n {
      KeepsFilledRefl(trace[m]);
    } else {
      ChainKeepsFilled(trace, m, n - 1);
      KeepsFilledTrans(trace[m], trace[n - 1], trace[n]);
    }
  }

  /** The records after each prefix of the document in the main loop. */
  function ScanTrace(doc: Doc, info: PlotInfo): (trace: seq<PlotInfo>)
    requires WellFormed(doc)
    ensures |trace| == |doc| + 1
    ensures forall k :: 0 <= k <= |doc| ==> trace[k] == RuleScan(doc, info, k)
  {
    seq(|doc| + 1, k requires 0 <= k <= |doc| => RuleScan(doc, info, k))
  }

  /**
   * Write-once across the whole main loop: a title, label or variable that
   * is filled after `m` tokens is the same after any later `n` tokens.
   */
  lemma RuleScanKeepsFilled(doc: Doc, info: PlotInfo, m: nat, n: nat)
    requires WellFormed(doc) && m <= n <= |doc|
    ensures KeepsFilled(RuleScan(doc, info, m), RuleScan(doc, info, n))
  {
    var trace := ScanTrace(doc, info);
    forall k | 0 < k < |trace|
      ensures KeepsFilled(trace[k - 1], trace[k])
    {
      ScanStep(doc, info, k);
    }
    ChainKeepsFilled(trace, m, n);
  }

  /** The record before the main loop: plot type and data source known. */
  function Sourced(doc: Doc): PlotInfo
  {
    WithPatternData(doc, WithFileData(doc, WithPlotType(doc, Unset)))
  }

  /**
   * The returned plot type is the geom of the first keyword token
   * (looked up by lemma, then by lower-cased text), or unset if there is
   * none; clean-up leaves geom names as they are.
   */
  lemma ParsedPlotType(doc: Doc)
    requires WellFormed(doc)
    ensures forall k: nat :: IsFirstKeyword(doc, k) ==> Parsed(doc).plotType == TokenPlotType(doc[k])
    ensures (forall j :: 0 <= j < |doc| ==> TokenPlotType(doc[j]).None?) ==> Parsed(doc).plotType == None
  {
    var s := Sourced(doc);
    assert s.plotType == PlotTypeScan(doc, None, |doc|);
    forall k: nat | IsFirstKeyword(doc, k)
      ensures Parsed(doc).plotType == TokenPlotType(doc[k])
    {
      PlotTypeIsFirstKeyword(doc, k, |doc|);
      GeomsAreClean(TokenPlotType(doc[k]));
      CleanValueOfClean(TokenPlotType(doc[k]));
    }
    if forall j :: 0 <= j < |doc| ==> TokenPlotType(doc[j]).None? {
      NoKeywordNoPlotType(doc);
    }
  }

  /** A data-file name ends in a non-empty suffix, so it is never empty. */
  lemma DataFileNameNonEmpty(s: string)
    requires IsDataFileName(s)
    ensures s != ""
  {
  }

  /**
   * If some token's text ends in .csv, .json, .data or .txt, the first such
   * token is the data source (stripped of quotes and spaces), and neither
   * the pattern loop nor the "using" fallback changes it.
   */
  lemma DataFileWins(doc: Doc, k: nat)
    requires WellFormed(doc)
    requires FirstDataFile(doc, 0) == Some(k)
    ensures WithPatternData(doc, WithFileData(doc, WithPlotType(doc, Unset))) == WithFileData(doc, WithPlotType(doc, Unset))
    ensures Parsed(doc).data == Some(Strip(doc[k].text, QuoteChars))
  {
    var s := Sourced(doc);
    DataFileNameNonEmpty(doc[k].text);
    assert s.data == Some(doc[k].text);
  }

  /**
   * With no data-file token, the first token where a data pattern matches
   * supplies the data source, and when that value is non-empty the
   * "using" fallback leaves it alone.
   */
  lemma PatternDataWins(doc: Doc, k: nat)
    requires WellFormed(doc)
    requires FirstDataFile(doc, 0).None?
    requires FirstDataPattern(doc, 0, None) == Some(k)
    requires Truthy(DataPatternAt(doc, k, None))
    ensures Parsed(doc).data == CleanValue(DataPatternAt(doc, k, None))
  {
    var s := Sourced(doc);
    assert s.data == DataPatternAt(doc, k, None);
  }

  /** Every "using" fallback position is also a position where the pattern loop matches. */
  lemma UsingSourceIsPattern(doc: Doc, i: nat, info: PlotInfo, data: Option<string>)
    requires i < |doc| && IsUsingSource(doc, i, info)
    ensures DataPatternAt(doc, i, data).Some?
  {
  }

  /**
   * The "using" fallback adds nothing when no pattern matched: with no
   * data-file token and no pattern match, the data source stays unset.
   */
  lemma NoSourceNoData(doc: Doc)
    requires WellFormed(doc)
    requires FirstDataFile(doc, 0).None?
    requires FirstDataPattern(doc, 0, None).None?
    ensures Parsed(doc).data == None
  {
    var s := Sourced(doc);
    assert s.data == None;
    var filled := RuleScan(doc, s, |doc|);
    match FirstUsingSource(doc, 0, filled)
    case Some(j) =>
      UsingSourceIsPattern(doc, j, filled, None);
      assert false;
    case None =>
  }

  /** The returned record is clean, and cleaning it again changes nothing. */
  lemma ParsedIsClean(doc: Doc)
    requires WellFormed(doc)
    ensures IsClean(Parsed(doc))
    ensures Cleaned(Parsed(doc)) == Parsed(doc)
  {
    CleanedIsClean(WithFallbackData(doc, RuleScan(doc, Sourced(doc), |doc|)));
  }
}
