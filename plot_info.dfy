/**
 * The eight-entry `plot_info` dictionary that the parser fills in, and
 * the final clean-up pass that strips quotes and spaces from every value.
 */
module PlotInfos {
  import opened Wrappers
  import opened Strings

  /** The dictionary's keys, in insertion order. */
  datatype Field = PlotType | Data | XVariable | YVariable | ColorVariable | Title | XLabel | YLabel

  const Fields: seq<Field> := [PlotType, Data, XVariable, YVariable, ColorVariable, Title, XLabel, YLabel]

  /** No key is listed twice. */
  lemma FieldsDistinct()
    ensures forall j, k :: 0 <= j < |Fields| && 0 <= k < |Fields| && j != k ==> Fields[j] != Fields[k]
  {
  }

  /** Each value is `None` or a string. */
  datatype PlotInfo = PlotInfo(
    plotType: Option<string>,
    data: Option<string>,
    xVariable: Option<string>,
    yVariable: Option<string>,
    colorVariable: Option<string>,
    title: Option<string>,
    xLabel: Option<string>,
    yLabel: Option<string>)
  {
    /** `plot_info[key]` */
    function Get(f: Field): Option<string>
    {
      match f
      case PlotType => plotType
      case Data => data
      case XVariable => xVariable
      case YVariable => yVariable
      case ColorVariable => colorVariable
      case Title => title
      case XLabel => xLabel
      case YLabel => yLabel
    }

    /** `plot_info[key] = v`: that entry changes and no other. */
    function With(f: Field, v: Option<string>): (r: PlotInfo)
      ensures r.Get(f) == v
      ensures forall g :: g != f ==> r.Get(g) == Get(g)
    {
      match f
      case PlotType => this.(plotType := v)
      case Data => this.(data := v)
      case XVariable => this.(xVariable := v)
      case YVariable => this.(yVariable := v)
      case ColorVariable => this.(colorVariable := v)
      case Title => this.(title := v)
      case XLabel => this.(xLabel := v)
      case YLabel => this.(yLabel := v)
    }
  }

  /** The dictionary as `parse_description` creates it: every value `None`. */
  const Unset: PlotInfo := PlotInfo(None, None, None, None, None, None, None, None)

  /** One value after clean-up: a non-empty string is stripped of quotes and spaces, anything else is kept. */
  function CleanValue(v: Option<string>): Option<string>
  {
    if Truthy(v) then Some(Strip(v.value, QuoteChars)) else v
  }

  /** The record after the clean-up loop. */
  function Cleaned(info: PlotInfo): PlotInfo
  {
    PlotInfo(CleanValue(info.plotType), CleanValue(info.data), CleanValue(info.xVariable),
             CleanValue(info.yVariable), CleanValue(info.colorVariable), CleanValue(info.title),
             CleanValue(info.xLabel), CleanValue(info.yLabel))
  }

  /** A value that neither begins nor ends with a quote or a space. */
  predicate IsCleanValue(v: Option<string>)
  {
    v.Some? && v.value != "" ==> v.value[0] !in QuoteChars && v.value[|v.value| - 1] !in QuoteChars
  }

  predicate IsClean(info: PlotInfo)
  {
    forall f :: IsCleanValue(info.Get(f))
  }

  /** A cleaned value is clean, and cleaning it again changes nothing. */
  lemma CleanValueIsClean(v: Option<string>)
    ensures IsCleanValue(CleanValue(v))
    ensures CleanValue(CleanValue(v)) == CleanValue(v)
  {
    if Truthy(v) {
      StripIdempotent(v.value, QuoteChars);
    }
  }

  /**
   * After clean-up no non-empty value begins or ends with `'`, `"` or a
   * space, and cleaning again changes nothing.
   */
  lemma CleanedIsClean(info: PlotInfo)
    ensures IsClean(Cleaned(info))
    ensures Cleaned(Cleaned(info)) == Cleaned(info)
  {
    CleanValueIsClean(info.plotType);
    CleanValueIsClean(info.data);
    CleanValueIsClean(info.xVariable);
    CleanValueIsClean(info.yVariable);
    CleanValueIsClean(info.colorVariable);
    CleanValueIsClean(info.title);
    CleanValueIsClean(info.xLabel);
    CleanValueIsClean(info.yLabel);
    forall f ensures IsCleanValue(Cleaned(info).Get(f)) {
      match f
      case PlotType =>
      case Data =>
      case XVariable =>
      case YVariable =>
      case ColorVariable =>
      case Title =>
      case XLabel =>
      case YLabel =>
    }
  }

  /** A clean value, in particular a keyword-derived one, survives clean-up unchanged. */
  lemma CleanValueOfClean(v: Option<string>)
    requires IsCleanValue(v)
    ensures CleanValue(v) == v
  {
    if Truthy(v) {
      StripFixed(v.value, QuoteChars);
    }
  }

  /** A record whose every key, visited in `Fields` order, holds the cleaned value is the cleaned record. */
  lemma CleanedByFields(before: PlotInfo, after: PlotInfo)
    requires forall j :: 0 <= j < |Fields| ==> after.Get(Fields[j]) == CleanValue(before.Get(Fields[j]))
    ensures after == Cleaned(before)
  {
    assert after.Get(Fields[0]) == CleanValue(before.Get(Fields[0]));
    assert after.Get(Fields[1]) == CleanValue(before.Get(Fields[1]));
    assert after.Get(Fields[2]) == CleanValue(before.Get(Fields[2]));
    assert after.Get(Fields[3]) == CleanValue(before.Get(Fields[3]));
    assert after.Get(Fields[4]) == CleanValue(before.Get(Fields[4]));
    assert after.Get(Fields[5]) == CleanValue(before.Get(Fields[5]));
    assert after.Get(Fields[6]) == CleanValue(before.Get(Fields[6]));
    assert after.Get(Fields[7]) == CleanValue(before.Get(Fields[7]));
  }
}
