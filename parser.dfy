/**
 * `NLPProcessor.parse_description`: one pass per concern over the token
 * sequence, each a loop that fills an entry of the `plot_info` record, then
 * a clean-up pass over every entry.
 */
module DescriptionParser {
  import opened Wrappers
  import opened Strings
  import opened Tokens
  import opened PlotInfos
  import opened Rules

  /** Plot-type keywords and the ggplot2 geom each one selects. */
  const PlotTypeGeoms: map<string, string> :=
    map["scatter" := "geom_point", "bar" := "geom_bar", "histogram" := "geom_histogram", "line" := "geom_line"]

  /** The geom a token names: its lemma is looked up first, its lower-cased text second. */
  function TokenPlotType(t: Token): (g: Option<string>)
    ensures g.Some? <==> t.baseForm in PlotTypeGeoms || Lower(t.text) in PlotTypeGeoms
    ensures g.Some? ==> g.value in PlotTypeGeoms.Values
    ensures g == Some("geom_point") <==> t.baseForm == "scatter" || (t.baseForm !in PlotTypeGeoms && Lower(t.text) == "scatter")
    ensures g == Some("geom_bar") <==> t.baseForm == "bar" || (t.baseForm !in PlotTypeGeoms && Lower(t.text) == "bar")
    ensures g == Some("geom_histogram") <==> t.baseForm == "histogram" || (t.baseForm !in PlotTypeGeoms && Lower(t.text) == "histogram")
    ensures g == Some("geom_line") <==> t.baseForm == "line" || (t.baseForm !in PlotTypeGeoms && Lower(t.text) == "line")
  {
    if t.baseForm in PlotTypeGeoms then Some(PlotTypeGeoms[t.baseForm])
    else if Lower(t.text) in PlotTypeGeoms then Some(PlotTypeGeoms[Lower(t.text)])
    else None
  }

  /**
   * The plot type after the plot-type loop has visited the first `n`
   * tokens, starting from `p0`.
   */
  function PlotTypeScan(doc: Doc, p0: Option<string>, n: nat): Option<string>
    requires n <= |doc|
  {
    if n == 0 then p0
    else
      var p := PlotTypeScan(doc, p0, n - 1);
      if !Truthy(p) && TokenPlotType(doc[n - 1]).Some? then TokenPlotType(doc[n - 1]) else p
  }

  /** `text.endswith((".csv", ".json", ".data", ".txt"))` */
  predicate IsDataFileName(s: string)
  {
    EndsWith(s, ".csv") || EndsWith(s, ".json") || EndsWith(s, ".data") || EndsWith(s, ".txt")
  }

  /** The index of the first token at or after `from` whose text is a data-file name. */
  function FirstDataFile(doc: Doc, from: nat): (k: Option<nat>)
    requires from <= |doc|
    ensures k.Some? ==> from <= k.value < |doc| && IsDataFileName(doc[k.value].text)
    ensures k.Some? ==> forall j :: from <= j < k.value ==> !IsDataFileName(doc[j].text)
    ensures k.None? ==> forall j :: from <= j < |doc| ==> !IsDataFileName(doc[j].text)
    decreases |doc| - from
  {
    if from == |doc| then None
    else if IsDataFileName(doc[from].text) then Some(from)
    else FirstDataFile(doc, from + 1)
  }

  /**
   * The data source the pattern loop takes at token `i`, if one of its
   * patterns matches there: "iris dataset", "data is iris", "from iris"
   * and "using iris". `data` is the record's current data entry.
   */
  function DataPatternAt(doc: Doc, i: nat, data: Option<string>): Option<string>
    requires i < |doc|
  {
    var n := |doc|;
    var t := doc[i];
    if t.baseForm == "dataset" && i > 0 && IsNounLike(doc[i - 1].pos) then Some(doc[i - 1].text)
    else if t.baseForm in {"data", "dataset"} && i + 1 < n && doc[i + 1].baseForm == "is" && i + 2 < n && IsNounLike(doc[i + 2].pos) then
      Some(doc[i + 2].text)
    else if t.baseForm == "from" && i + 1 < n && IsNounLike(doc[i + 1].pos)
         && ((i + 2 < n && doc[i + 2].baseForm == "dataset") || IsDataFileName(doc[i + 1].text) || !Truthy(data)) then
      Some(doc[i + 1].text)
    else if t.baseForm == "using" && i + 1 < n && IsNounLike(doc[i + 1].pos) then Some(doc[i + 1].text)
    else None
  }

  /** The index of the first token at or after `from` where a data pattern matches. */
  function FirstDataPattern(doc: Doc, from: nat, data: Option<string>): (k: Option<nat>)
    requires from <= |doc|
    ensures k.Some? ==> from <= k.value < |doc| && DataPatternAt(doc, k.value, data).Some?
    ensures k.Some? ==> forall j :: from <= j < k.value ==> DataPatternAt(doc, j, data).None?
    ensures k.None? ==> forall j :: from <= j < |doc| ==> DataPatternAt(doc, j, data).None?
    decreases |doc| - from
  {
    if from == |doc| then None
    else if DataPatternAt(doc, from, data).Some? then Some(from)
    else FirstDataPattern(doc, from + 1, data)
  }

  /** "using D" where D is a noun that is none of the variables already found. */
  predicate IsUsingSource(doc: Doc, i: nat, info: PlotInfo)
    requires i < |doc|
  {
    && doc[i].baseForm == "using" && i + 1 < |doc| && IsNounLike(doc[i + 1].pos)
    && Some(doc[i + 1].text) !in [info.xVariable, info.yVariable, info.colorVariable]
  }

  /** The index of the first "using" fallback at or after `from`. */
  function FirstUsingSource(doc: Doc, from: nat, info: PlotInfo): (k: Option<nat>)
    requires from <= |doc|
    ensures k.Some? ==> from <= k.value && k.value + 1 < |doc| && IsUsingSource(doc, k.value, info)
    ensures k.Some? ==> forall j :: from <= j < k.value ==> !IsUsingSource(doc, j, info)
    ensures k.None? ==> forall j :: from <= j < |doc| ==> !IsUsingSource(doc, j, info)
    decreases |doc| - from
  {
    if from == |doc| then None
    else if IsUsingSource(doc, from, info) then Some(from)
    else FirstUsingSource(doc, from + 1, info)
  }

  /** The record after the main rule loop has visited the first `n` tokens. */
  function RuleScan(doc: Doc, info: PlotInfo, n: nat): (r: PlotInfo)
    requires WellFormed(doc) && n <= |doc|
    ensures r.plotType == info.plotType && r.data == info.data
    ensures KeepsFilled(info, r)
  {
    if n == 0 then info else Step(doc, n - 1, RuleScan(doc, info, n - 1))
  }

  /** The plot-type loop. */
  function WithPlotType(doc: Doc, info: PlotInfo): PlotInfo
  {
    info.(plotType := PlotTypeScan(doc, info.plotType, |doc|))
  }

  /** The file-name loop: runs only while no data source is known. */
  function WithFileData(doc: Doc, info: PlotInfo): PlotInfo
  {
    if Truthy(info.data) then info
    else match FirstDataFile(doc, 0)
      case Some(k) => info.(data := Some(doc[k].text))
      case None => info
  }

  /** The pattern loop: runs only while no data source is known. */
  function WithPatternData(doc: Doc, info: PlotInfo): PlotInfo
  {
    if Truthy(info.data) then info
    else match FirstDataPattern(doc, 0, info.data)
      case Some(k) => info.(data := DataPatternAt(doc, k, info.data))
      case None => info
  }

  /** The "using" fallback after the rule loop: runs only while no data source is known. */
  function WithFallbackData(doc: Doc, info: PlotInfo): PlotInfo
  {
    if Truthy(info.data) then info
    else match FirstUsingSource(doc, 0, info)
      case Some(k) => info.(data := Some(doc[k + 1].text))
      case None => info
  }

  /** What `parse_description` returns for a document. */
  function Parsed(doc: Doc): PlotInfo
    requires WellFormed(doc)
  {
    var sourced := WithPatternData(doc, WithFileData(doc, WithPlotType(doc, Unset)));
    Cleaned(WithFallbackData(doc, RuleScan(doc, sourced, |doc|)))
  }

  /** The plot-type loop: a keyword is taken only while no plot type is known. */
  method FillPlotType(doc: Doc, info: PlotInfo) returns (r: PlotInfo)
    ensures r == WithPlotType(doc, info)
  {
    r := info;
    for i := 0 to |doc|
      invariant r == info.(plotType := PlotTypeScan(doc, info.plotType, i))
    {
      if !Truthy(r.plotType) {
        var token := doc[i];
        if token.baseForm in PlotTypeGeoms {
          r := r.(plotType := Some(PlotTypeGeoms[token.baseForm]));
        } else if Lower(token.text) in PlotTypeGeoms {
          r := r.(plotType := Some(PlotTypeGeoms[Lower(token.text)]));
        }
      }
    }
  }

  /** The file-name loop: the first token that names a data file. */
  method FillDataFromFile(doc: Doc, info: PlotInfo) returns (r: PlotInfo)
    ensures r == WithFileData(doc, info)
  {
    r := info;
    if !Truthy(r.data) {
      var i := 0;
      while i < |doc|
        invariant i <= |doc| && r == info
        invariant FirstDataFile(doc, i) == FirstDataFile(doc, 0)
      {
        if IsDataFileName(doc[i].text) {
          r := r.(data := Some(doc[i].text));
          break;
        }
        i := i + 1;
      }
    }
  }

  /** The pattern loop: the first token where a data-source pattern matches. */
  method FillDataFromPatterns(doc: Doc, info: PlotInfo) returns (r: PlotInfo)
    ensures r == WithPatternData(doc, info)
  {
    r := info;
    if !Truthy(r.data) {
      var i := 0;
      while i < |doc|
        invariant i <= |doc| && r == info
        invariant FirstDataPattern(doc, i, info.data) == FirstDataPattern(doc, 0, info.data)
      {
        var token := doc[i];
        if token.baseForm == "dataset" && i > 0 && IsNounLike(doc[i - 1].pos) {
          r := r.(data := Some(doc[i - 1].text));
          break;
        }
        if token.baseForm in {"data", "dataset"} && i + 1 < |doc| && doc[i + 1].baseForm == "is"
           && i + 2 < |doc| && IsNounLike(doc[i + 2].pos) {
          r := r.(data := Some(doc[i + 2].text));
          break;
        }
        if token.baseForm == "from" && i + 1 < |doc| && IsNounLike(doc[i + 1].pos) {
          if i + 2 < |doc| && doc[i + 2].baseForm == "dataset" {
            r := r.(data := Some(doc[i + 1].text));
            break;
          } else if IsDataFileName(doc[i + 1].text) {
            r := r.(data := Some(doc[i + 1].text));
            break;
          } else if !Truthy(r.data) && IsNounLike(doc[i + 1].pos) {
            r := r.(data := Some(doc[i + 1].text));
            break;
          }
        }
        if token.baseForm == "using" && i + 1 < |doc| && IsNounLike(doc[i + 1].pos) {
          r := r.(data := Some(doc[i + 1].text));
          break;
        }
        i := i + 1;
      }
    }
  }

  /** The main loop: title, label and variable rules for every token in turn. */
  method ApplyRules(doc: Doc, info: PlotInfo) returns (r: PlotInfo)
    requires WellFormed(doc)
    ensures r == RuleScan(doc, info, |doc|)
  {
    r := info;
    for i := 0 to |doc|
      invariant r == RuleScan(doc, info, i)
    {
      r := TitleRule(doc, i, r);
      // the x-label entry is visited before the y-label entry
      r := LabelRule(doc, i, XLabel, r);
      r := LabelRule(doc, i, YLabel, r);
      r := XRule(doc, i, r);
      r := YRule(doc, i, r);
      r := ColorRule(doc, i, r);
    }
  }

  /** The fallback loop: "using D" for a D that is not one of the variables. */
  method FillDataFromUsing(doc: Doc, info: PlotInfo) returns (r: PlotInfo)
    ensures r == WithFallbackData(doc, info)
  {
    r := info;
    if !Truthy(r.data) {
      var i := 0;
      while i < |doc|
        invariant i <= |doc| && r == info
        invariant FirstUsingSource(doc, i, info) == FirstUsingSource(doc, 0, info)
      {
        if doc[i].baseForm == "using" && i + 1 < |doc| && IsNounLike(doc[i + 1].pos)
           && Some(doc[i + 1].text) !in [r.xVariable, r.yVariable, r.colorVariable] {
          r := r.(data := Some(doc[i + 1].text));
          break;
        }
        i := i + 1;
      }
    }
  }

  /** The clean-up loop over every key: strip quotes and spaces from every non-empty value. */
  method CleanUp(info: PlotInfo) returns (r: PlotInfo)
    ensures r == Cleaned(info)
  {
    r := info;
    FieldsDistinct();
    for k := 0 to |Fields|
      invariant forall j :: 0 <= j < k ==> r.Get(Fields[j]) == CleanValue(info.Get(Fields[j]))
      invariant forall j :: k <= j < |Fields| ==> r.Get(Fields[j]) == info.Get(Fields[j])
    {
      var v := r.Get(Fields[k]);
      if Truthy(v) {
        ghost var prev := r;
        r := r.With(Fields[k], Some(Strip(v.value, QuoteChars)));
        assert forall j :: 0 <= j < |Fields| && j != k ==> r.Get(Fields[j]) == prev.Get(Fields[j]);
      }
    }
    CleanedByFields(info, r);
  }

  /** `parse_description`: the six loops in source order. */
  method ParseDescription(doc: Doc) returns (info: PlotInfo)
    requires WellFormed(doc)
    ensures info == Parsed(doc)
    ensures IsClean(info)
  {
    info := FillPlotType(doc, Unset);
    info := FillDataFromFile(doc, info);
    info := FillDataFromPatterns(doc, info);
    info := ApplyRules(doc, info);
    info := FillDataFromUsing(doc, info);
    ghost var unclean := info;
    info := CleanUp(info);
    CleanedIsClean(unclean);
  }
}
