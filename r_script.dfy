/**
 * The ggplot2 script that `RInterface.generate_plot` builds from a plot
 * specification before handing it to R: a data-loading line, the
 * `ggplot(...)` call with its geom, optional colour, title and label lines,
 * and the `ggsave` line, or one of two validation errors.
 */
module RScript {
  import opened Wrappers
  import opened Strings

  /**
   * The plot specification: a dictionary from key to value. A key that is
   * absent is different from a key that is present with value `None`.
   */
  type PlotSpec = map<string, Option<string>>

  /** `plot_spec.get(key, default)`: the default applies only to an absent key. */
  function Get(spec: PlotSpec, key: string, default: Option<string>): Option<string>
  {
    if key in spec then spec[key] else default
  }

  /** A value as an f-string renders it: `None` becomes the text "None". */
  function Show(v: Option<string>): string
  {
    match v
    case Some(s) => s
    case None => "None"
  }

  /** The two `ValueError`s raised before any R code is run. */
  datatype PlotError =
    | MissingDataSource   // no data and not both of x and y
    | MissingXVariable    // no x variable at all

  const Preamble: string := "library(ggplot2);\n"

  /** The stand-in data name used when the specification has no "data" key. */
  const NoData: Option<string> := Some("NULL")

  /** Datasets that ship with R and are loaded with `data(...)`. */
  const KnownDatasets: seq<string> := ["iris", "mtcars"]

  /** Every occurrence of character `c` in `s` replaced by `rep` (`str.replace` with a one-character pattern). */
  function ReplaceChar(s: string, c: char, rep: string): (r: string)
    ensures c !in rep ==> c !in r
    ensures c !in s ==> r == s
  {
    if s == [] then []
    else (if s[0] == c then rep else [s[0]]) + ReplaceChar(s[1..], c, rep)
  }

  /** `str.replace` distributes over concatenation. */
  lemma {:induction false} ReplaceCharAppend(a: string, b: string, c: char, rep: string)
    ensures ReplaceChar(a + b, c, rep) == ReplaceChar(a, c, rep) + ReplaceChar(b, c, rep)
  {
    if a == [] {
      assert a + b == b;
    } else {
      var head := if a[0] == c then rep else [a[0]];
      assert (a + b)[0] == a[0] && (a + b)[1..] == a[1..] + b;
      assert ReplaceChar(a + b, c, rep) == head + ReplaceChar(a[1..] + b, c, rep);
      ReplaceCharAppend(a[1..], b, c, rep);
      assert ReplaceChar(a, c, rep) == head + ReplaceChar(a[1..], c, rep);
      AppendAssoc(head, ReplaceChar(a[1..], c, rep), ReplaceChar(b, c, rep));
    }
  }

  /** On one character, `str.replace` gives the replacement for `c` and the character itself otherwise. */
  lemma ReplaceCharSingle(d: char, c: char, rep: string)
    ensures ReplaceChar([d], c, rep) == if d == c then rep else [d]
  {
  }

  /** `value.replace("'", "\\'")`: every single quote gets a backslash in front. */
  function Escape(s: string): string
  {
    ReplaceChar(s, '\'', "\\'")
  }

  /**
   * How R reads the body of a single-quoted string literal: a backslash
   * takes the character after it literally, and an unescaped quote closes
   * the literal. The text read and whatever follows the closing quote, or
   * `None` when the literal is never closed.
   */
  function ReadQuoted(r: string): Option<(string, string)>
  {
    if r == [] then None
    else if r[0] == '\'' then Some(([], r[1..]))
    else if r[0] == '\\' then
      if |r| < 2 then None
      else match ReadQuoted(r[2..])
        case None => None
        case Some(p) => Some(([r[1]] + p.0, p.1))
    else match ReadQuoted(r[1..])
      case None => None
      case Some(p) => Some(([r[0]] + p.0, p.1))
  }

  /** `path.replace("\\", "/")` */
  function ForwardSlashes(path: string): (r: string)
    ensures |r| == |path|
    ensures '\\' !in r
    ensures '\\' !in path ==> r == path
    ensures forall i :: 0 <= i < |path| ==> r[i] == if path[i] == '\\' then '/' else path[i]
  {
    if path == [] then []
    else [if path[0] == '\\' then '/' else path[0]] + ForwardSlashes(path[1..])
  }

  /** `name.split('.')[0]`: the text before the first dot, or all of it. */
  function Stem(name: string): (r: string)
    ensures StartsWith(name, r)
    ensures '.' !in r
    ensures |r| < |name| ==> name[|r|] == '.'
  {
    if name == [] || name[0] == '.' then []
    else [name[0]] + Stem(name[1..])
  }

  /** The value is a data file R reads with `read.csv`. */
  predicate IsCsvData(data: Option<string>)
  {
    data.Some? && data != NoData && data.value !in KnownDatasets && EndsWith(data.value, ".csv")
  }

  /** The line that loads the data, if any: `data(name);` or `stem <- read.csv('file');`. */
  function DataLoadLine(data: Option<string>): string
  {
    if data == NoData || data.None? then ""
    else if data.value in KnownDatasets then "data(" + data.value + ");\n"
    else if EndsWith(data.value, ".csv") then Stem(data.value) + " <- read.csv('" + data.value + "');\n"
    else ""
  }

  /** The data name after loading: a CSV file is replaced by its data-frame name. */
  function Frame(data: Option<string>): Option<string>
  {
    if IsCsvData(data) then Some(Stem(data.value)) else data
  }

  /** The aesthetic mapping: x in backticks, and y in backticks when it is non-empty. */
  function Aes(x: string, y: Option<string>): string
  {
    if Truthy(y) then "aes(x=`" + x + "`, y=`" + y.value + "`)" else "aes(x=`" + x + "`)"
  }

  /** `p <- ggplot(...) + `: the mapping alone for a data-less plot, else the data name first. */
  function PlotCall(frame: Option<string>, aes: string): string
  {
    if frame == NoData then "p <- ggplot(mapping=" + aes + ") + "
    else "p <- ggplot(" + Show(frame) + ", " + aes + ") + "
  }

  /** The geom: the "plot_type" value, `geom_point` only if the key is absent. */
  function GeomCall(spec: PlotSpec): string
  {
    Show(Get(spec, "plot_type", Some("geom_point"))) + "();\n"
  }

  /** The colour mapping, the variable in backticks inside `factor(...)`. */
  function ColorMapping(color: string): string
  {
    "p <- p + aes(color=factor(`" + color + "`));\n"
  }

  /** A `labs(...)` setting, its text in single quotes with quotes escaped. */
  function Labs(arg: string, text: string): string
  {
    "p <- p + labs(" + arg + "='" + Escape(text) + "');\n"
  }

  /** The colour line, for a non-empty colour variable and a plot with data. */
  function ColorLine(color: Option<string>, frame: Option<string>): string
  {
    if Truthy(color) && frame != NoData then ColorMapping(color.value) else ""
  }

  /** The title or axis-label line, for a non-empty value. */
  function LabsLine(arg: string, v: Option<string>): string
  {
    if Truthy(v) then Labs(arg, v.value) else ""
  }

  function SaveLine(path: string): string
  {
    "ggsave(filename='" + ForwardSlashes(path) + "', plot=p);\n"
  }

  /** The error `generate_plot` raises for a specification, checked in source order. */
  function SpecError(spec: PlotSpec): Option<PlotError>
  {
    var x := Get(spec, "x_variable", None);
    var y := Get(spec, "y_variable", None);
    if Get(spec, "data", NoData) == NoData && !(Truthy(x) && Truthy(y)) then Some(MissingDataSource)
    else if !Truthy(x) then Some(MissingXVariable)
    else None
  }

  /** The data-loading line and the `ggplot(...)` call, for a specification that raises no error. */
  function Opening(spec: PlotSpec): string
    requires SpecError(spec).None?
  {
    var data := Get(spec, "data", NoData);
    DataLoadLine(data) + PlotCall(Frame(data), Aes(Get(spec, "x_variable", None).value, Get(spec, "y_variable", None)))
  }

  /** The geom, then the optional colour, title, x-label and y-label lines, in that order. */
  function Layers(spec: PlotSpec): string
  {
    GeomCall(spec)
    + ColorLine(Get(spec, "color_variable", None), Frame(Get(spec, "data", NoData)))
    + LabsLine("title", Get(spec, "title", None))
    + LabsLine("x", Get(spec, "x_label", None))
    + LabsLine("y", Get(spec, "y_label", None))
  }

  /** The R script for a specification and an output path, or the error raised. */
  function PlotScript(spec: PlotSpec, path: string): Result<string, PlotError>
  {
    match SpecError(spec)
    case Some(e) => Failure(e)
    case None => Success(Preamble + Opening(spec) + Layers(spec) + SaveLine(path))
  }

  lemma AppendAssoc(a: string, b: string, c: string)
    ensures a + b + c == a + (b + c)
  {
  }

  /** The data-loading step: the line it appends and the data name used from then on. */
  method LoadData(dataName: Option<string>) returns (load: string, frame: Option<string>)
    ensures load == DataLoadLine(dataName) && frame == Frame(dataName)
  {
    var isKnown := dataName.Some? && dataName.value in KnownDatasets;
    load := "";
    frame := dataName;
    if dataName != NoData {
      if isKnown {
        load := "data(" + dataName.value + ");\n";
      } else if dataName.Some? && (EndsWith(dataName.value, ".csv") || EndsWith(dataName.value, ".json")) {
        if EndsWith(dataName.value, ".csv") {
          var stem := Stem(dataName.value);
          load := stem + " <- read.csv('" + dataName.value + "');\n";
          frame := Some(stem);
        }
      }
    }
  }

  /** The base-plot step: `p <- ggplot(...) + `, or the error for a missing x variable. */
  method BasePlot(x: Option<string>, y: Option<string>, frame: Option<string>) returns (call: Result<string, PlotError>)
    ensures !Truthy(x) ==> call == Failure(MissingXVariable)
    ensures Truthy(x) ==> call == Success(PlotCall(frame, Aes(x.value, y)))
  {
    if Truthy(x) && Truthy(y) {
      var aes := "aes(x=`" + x.value + "`, y=`" + y.value + "`)";
      if frame == NoData {
        call := Success("p <- ggplot(mapping=" + aes + ") + ");
      } else {
        call := Success("p <- ggplot(" + Show(frame) + ", " + aes + ") + ");
      }
    } else if Truthy(x) {
      var aes := "aes(x=`" + x.value + "`)";
      if frame == NoData {
        call := Success("p <- ggplot(mapping=" + aes + ") + ");
      } else {
        call := Success("p <- ggplot(" + Show(frame) + ", " + aes + ") + ");
      }
    } else {
      call := Failure(MissingXVariable);
    }
  }

  /** The geom, colour, title and label appends, for the data name in force after loading. */
  method AppendLayers(head: string, spec: PlotSpec, dataName: Option<string>) returns (script: string)
    requires dataName == Frame(Get(spec, "data", NoData))
    ensures script == head + Layers(spec)
  {
    var plotType := Get(spec, "plot_type", Some("geom_point"));
    script := head + (Show(plotType) + "();\n");
    ghost var layers := GeomCall(spec);
    assert script == head + layers;
    var colorVar := Get(spec, "color_variable", None);
    if Truthy(colorVar) && dataName != NoData {
      AppendAssoc(head, layers, ColorMapping(colorVar.value));
      script := script + ColorMapping(colorVar.value);
    }
    layers := layers + ColorLine(colorVar, dataName);
    assert script == head + layers;
    var title := Get(spec, "title", None);
    if Truthy(title) {
      AppendAssoc(head, layers, Labs("title", title.value));
      script := script + Labs("title", title.value);
    }
    layers := layers + LabsLine("title", title);
    assert script == head + layers;
    var xLabel := Get(spec, "x_label", None);
    if Truthy(xLabel) {
      AppendAssoc(head, layers, Labs("x", xLabel.value));
      script := script + Labs("x", xLabel.value);
    }
    layers := layers + LabsLine("x", xLabel);
    assert script == head + layers;
    var yLabel := Get(spec, "y_label", None);
    if Truthy(yLabel) {
      AppendAssoc(head, layers, Labs("y", yLabel.value));
      script := script + Labs("y", yLabel.value);
    }
    layers := layers + LabsLine("y", yLabel);
    assert script == head + layers;
  }

  /** The command-building part of `generate_plot`: appends to the script line by line. */
  method GeneratePlot(spec: PlotSpec, outputPath: string) returns (r: Result<string, PlotError>)
    ensures r == PlotScript(spec, outputPath)
  {
    var script := Preamble;
    var dataName := Get(spec, "data", NoData);
    var x := Get(spec, "x_variable", None);
    var y := Get(spec, "y_variable", None);
    if dataName == NoData && !(Truthy(x) && Truthy(y)) {
      return Failure(MissingDataSource);
    }
    ghost var data := dataName;
    var load;
    load, dataName := LoadData(dataName);
    script := script + load;
    var call := BasePlot(x, y, dataName);
    if call.Failure? {
      return Failure(call.error);
    }
    script := script + call.value;
    assert script == Preamble + Opening(spec) by {
      assert Opening(spec) == load + call.value;
    }
    script := AppendLayers(script, spec, dataName);
    var safePath := ForwardSlashes(outputPath);
    assert "ggsave(filename='" + safePath + "', plot=p);\n" == SaveLine(outputPath);
    script := script + ("ggsave(filename='" + safePath + "', plot=p);\n");
    r := Success(script);
  }
}
