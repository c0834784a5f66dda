/**
 * The body of the parser's main loop: for token `i`, the title rule, the
 * two label rules, and the x, y and colour variable rules, in that order.
 * Each rule is a function from the record before to the record after.
 */
module Rules {
  import opened Wrappers
  import opened Strings
  import opened Tokens
  import opened Phrases
  import opened PlotInfos

  /** `phrase = self._extract_phrase(...)` followed by `if phrase: plot_info[f] = phrase`. */
  function SetIfTruthy(info: PlotInfo, f: Field, phrase: Option<string>): PlotInfo
  {
    if Truthy(phrase) then info.With(f, phrase) else info
  }

  /** `doc[j].lemma_ == "be" or doc[j].text == ":"` */
  predicate IsCopula(doc: Doc, j: nat)
    requires j < |doc|
  {
    doc[j].baseForm == "be" || doc[j].text == ":"
  }

  /** `doc[j].lemma_ == "should" and doc[j + 1].lemma_ == "be"` */
  predicate IsShouldBe(doc: Doc, j: nat)
    requires j + 1 < |doc|
  {
    doc[j].baseForm == "should" && doc[j + 1].baseForm == "be"
  }

  const XAxisWords: set<string> := {"x-axis", "x_axis", "xvariable", "x-variable"}
  const YAxisWords: set<string> := {"y-axis", "y_axis", "yvariable", "y-variable"}
  const VersusWords: set<string> := {"vs", "versus", "against"}
  const ChartWords: set<string> := {"plot", "histogram", "chart"}
  const YHeadWords: set<string> := {"y-axis", "y_axis", "y"}

  /** The lemmas that introduce an x or y label. */
  function LabelTerms(key: Field): set<string>
  {
    if key == XLabel then {"xlabel", "x-label"} else {"ylabel", "y-label"}
  }

  /**
   * "title is X", "title: X" and "titled X". The title is only ever
   * replaced by a non-empty phrase, and only while it is still empty.
   */
  function TitleRule(doc: Doc, i: nat, info: PlotInfo): (r: PlotInfo)
    requires i < |doc|
    ensures Truthy(info.title) ==> r == info
    ensures r == info.(title := r.title)
    ensures r.title != info.title ==> Truthy(r.title)
  {
    var n := |doc|;
    if Truthy(info.title) then info
    else if doc[i].baseForm == "title" then
      if i + 1 < n && doc[i + 1].baseForm == "be" then SetIfTruthy(info, Title, Phrase(doc, i + 2, true, false))
      else if i + 1 < n && doc[i + 1].text == ":" then SetIfTruthy(info, Title, Phrase(doc, i + 2, true, false))
      else info
    else if Lower(doc[i].text) == "titled" && i + 1 < n then SetIfTruthy(info, Title, Phrase(doc, i + 1, true, false))
    else info
  }

  /**
   * "x-label: X", "x-label is X", "x-label 'X'", "x-label X" (and the same
   * for y). A label is only ever replaced by a non-empty phrase, and only
   * while it is still empty.
   */
  function LabelRule(doc: Doc, i: nat, key: Field, info: PlotInfo): (r: PlotInfo)
    requires i < |doc| && (key == XLabel || key == YLabel)
    ensures Truthy(info.Get(key)) ==> r == info
    ensures r == info.With(key, r.Get(key))
    ensures r.Get(key) != info.Get(key) ==> Truthy(r.Get(key))
  {
    var n := |doc|;
    if Truthy(info.Get(key)) || doc[i].baseForm !in LabelTerms(key) then info
    else if i + 1 < n && (doc[i + 1].text == ":" || doc[i + 1].baseForm == "be") then
      SetIfTruthy(info, key, Phrase(doc, i + 2, true, true))
    else if i + 1 < n && doc[i + 1].isQuote then SetIfTruthy(info, key, Phrase(doc, i + 1, true, true))
    else if i + 1 < n then SetIfTruthy(info, key, Phrase(doc, i + 1, true, true))
    else info
  }

  /**
   * The x-variable rules: "x-axis is V", "x-axis should be V", "x-axis as
   * V", "use V for x", "plot V vs W" (which may also fill the y variable,
   * if that is still empty), "histogram of V" and "x variable is V".
   */
  function XRule(doc: Doc, i: nat, info: PlotInfo): (r: PlotInfo)
    requires WellFormed(doc) && i < |doc|
    ensures Truthy(info.xVariable) ==> r == info
    ensures r == info.(xVariable := r.xVariable, yVariable := r.yVariable)
    ensures r.yVariable != info.yVariable ==> !Truthy(info.yVariable)
  {
    var n := |doc|;
    var t := doc[i];
    if Truthy(info.xVariable) then info
    else if t.baseForm in XAxisWords || Lower(t.text) == "x" then
      if i + 1 < n && IsCopula(doc, i + 1) then SetIfTruthy(info, XVariable, Phrase(doc, i + 2, false, false))
      else if i + 2 < n && IsShouldBe(doc, i + 1) then SetIfTruthy(info, XVariable, Phrase(doc, i + 3, false, false))
      else if i + 1 < n && doc[i + 1].baseForm == "as" then SetIfTruthy(info, XVariable, Phrase(doc, i + 2, false, false))
      else info
    else if t.baseForm == "use" && i + 3 < n && doc[i + 2].baseForm == "for" && Lower(doc[i + 3].text) == "x" then
      info.(xVariable := Some(QuotedOrText(doc[i + 1])))
    else if t.baseForm == "plot" && i + 1 < n && IsNameLike(doc[i + 1].pos) then
      var withX := info.(xVariable := Some(QuotedOrText(doc[i + 1])));
      if i + 3 < n && doc[i + 2].baseForm in VersusWords && IsNameLike(doc[i + 3].pos) && !Truthy(withX.yVariable) then
        withX.(yVariable := Some(QuotedOrText(doc[i + 3])))
      else withX
    else if Lower(t.text) == "of" && HeadLemma(doc, i) in ChartWords && i + 1 < n && IsNameLike(doc[i + 1].pos) then
      if info.plotType == Some("geom_histogram") then info.(xVariable := Some(QuotedOrText(doc[i + 1]))) else info
    else if t.baseForm == "variable" && i > 0 && Lower(doc[i - 1].text) == "x" then
      if i + 1 < n && IsCopula(doc, i + 1) && i + 2 < n then SetIfTruthy(info, XVariable, Phrase(doc, i + 2, false, false))
      else info
    else info
  }

  /**
   * The y-variable rules: "y-axis is V", "y-axis should be V", "y-axis as
   * V", a y-axis whose head is "represents" (its direct object), "use V
   * for y", "represents V" under a y-axis, and "y variable is V".
   */
  function YRule(doc: Doc, i: nat, info: PlotInfo): (r: PlotInfo)
    requires WellFormed(doc) && i < |doc|
    ensures Truthy(info.yVariable) ==> r == info
    ensures r == info.(yVariable := r.yVariable)
  {
    var n := |doc|;
    var t := doc[i];
    if Truthy(info.yVariable) then info
    else if t.baseForm in YAxisWords || Lower(t.text) == "y" then
      if i + 1 < n && IsCopula(doc, i + 1) then SetIfTruthy(info, YVariable, Phrase(doc, i + 2, false, false))
      else if i + 2 < n && IsShouldBe(doc, i + 1) then SetIfTruthy(info, YVariable, Phrase(doc, i + 3, false, false))
      else if i + 1 < n && doc[i + 1].baseForm == "as" then SetIfTruthy(info, YVariable, Phrase(doc, i + 2, false, false))
      else if i + 1 < n && HeadLemma(doc, i) == "represents" then
        match FirstChildWithDep(doc, t.head, "dobj", 0)
        case Some(c) => info.(yVariable := Some(QuotedOrText(doc[c])))
        case None => info
      else info
    else if t.baseForm == "use" && i + 3 < n && doc[i + 2].baseForm == "for" && Lower(doc[i + 3].text) == "y" then
      info.(yVariable := Some(QuotedOrText(doc[i + 1])))
    else if t.baseForm == "represents" && HeadLemma(doc, i) in YHeadWords && i + 1 < n then
      SetIfTruthy(info, YVariable, Phrase(doc, i + 1, false, false))
    else if t.baseForm == "variable" && i > 0 && Lower(doc[i - 1].text) == "y" then
      if i + 1 < n && IsCopula(doc, i + 1) && i + 2 < n then SetIfTruthy(info, YVariable, Phrase(doc, i + 2, false, false))
      else info
    else info
  }

  /**
   * The colour rules: "color by V" (by lemma, then by text) and a "color"
   * token whose head is "by" (the first object of that "by"; a token with
   * empty text counts as absent, as Python's truth test on a token does).
   */
  function ColorRule(doc: Doc, i: nat, info: PlotInfo): (r: PlotInfo)
    requires WellFormed(doc) && i < |doc|
    ensures Truthy(info.colorVariable) ==> r == info
    ensures r == info.(colorVariable := r.colorVariable)
  {
    var n := |doc|;
    var t := doc[i];
    if Truthy(info.colorVariable) then info
    else if t.baseForm == "color" && i + 1 < n && doc[i + 1].baseForm == "by" && i + 2 < n then
      SetIfTruthy(info, ColorVariable, Phrase(doc, i + 2, false, false))
    else if Lower(t.text) == "color" && i + 2 < n && doc[i + 1].text == "by" then
      info.(colorVariable := Some(QuotedOrText(doc[i + 2])))
    else if HeadLemma(doc, i) == "by" && t.baseForm == "color" then
      match FirstChildWithDep(doc, t.head, "pobj", 0)
      case Some(c) => if doc[c].text != "" then info.(colorVariable := Some(QuotedOrText(doc[c]))) else info
      case None => info
    else info
  }

  /** Every field the rules fill is kept once it holds a non-empty string. */
  predicate KeepsFilled(before: PlotInfo, after: PlotInfo)
  {
    forall f :: f != PlotType && f != Data && Truthy(before.Get(f)) ==> after.Get(f) == before.Get(f)
  }

  /**
   * One iteration of the main loop. It never touches the plot type or the
   * data source, and it never overwrites a field that is already filled.
   */
  function Step(doc: Doc, i: nat, info: PlotInfo): (r: PlotInfo)
    requires WellFormed(doc) && i < |doc|
    ensures r.plotType == info.plotType && r.data == info.data
    ensures KeepsFilled(info, r)
  {
    var afterTitle := TitleRule(doc, i, info);
    var afterLabels := LabelRule(doc, i, YLabel, LabelRule(doc, i, XLabel, afterTitle));
    ColorRule(doc, i, YRule(doc, i, XRule(doc, i, afterLabels)))
  }

  /**
   * "title should be X" never sets the title: the rule for it is shadowed
   * by the earlier test of the same lemma, which only accepts "be" or ":"
   * as the next token.
   */
  lemma TitleShouldBeIgnored(doc: Doc, i: nat, info: PlotInfo)
    requires i + 2 < |doc| && doc[i].baseForm == "title"
    requires doc[i + 1].baseForm == "should" && doc[i + 1].text != ":" && doc[i + 2].baseForm == "be"
    ensures TitleRule(doc, i, info) == info
  {
  }

  /** "of V" under a plot, histogram or chart sets the x variable only for a histogram. */
  lemma OfSetsXOnlyForHistogram(doc: Doc, i: nat, info: PlotInfo)
    requires WellFormed(doc) && i + 1 < |doc|
    requires doc[i].baseForm !in XAxisWords && Lower(doc[i].text) != "x"
    requires doc[i].baseForm != "use" && doc[i].baseForm != "plot"
    requires Lower(doc[i].text) == "of" && HeadLemma(doc, i) in ChartWords && IsNameLike(doc[i + 1].pos)
    ensures !Truthy(info.xVariable) && info.plotType == Some("geom_histogram") ==>
      XRule(doc, i, info) == info.(xVariable := Some(QuotedOrText(doc[i + 1])))
    ensures info.plotType != Some("geom_histogram") ==> XRule(doc, i, info) == info
  {
  }
}
