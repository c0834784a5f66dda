/**
 * Properties of the script `generate_plot` builds: when it raises, how
 * the script begins and ends, how each data source is loaded and named,
 * and the escaping of label text.
 */
module RScriptProperties {
  import opened Wrappers
  import opened Strings
  import opened RScript

  /** The two validation errors, each with the exact condition that raises it. */
  lemma ErrorCases(spec: PlotSpec, path: string)
    ensures var data := Get(spec, "data", NoData);
            var x := Get(spec, "x_variable", None);
            var y := Get(spec, "y_variable", None);
            && (PlotScript(spec, path) == Failure(MissingDataSource) <==> data == NoData && !(Truthy(x) && Truthy(y)))
            && (PlotScript(spec, path) == Failure(MissingXVariable) <==> data != NoData && !Truthy(x))
            && (PlotScript(spec, path).Success? <==> Truthy(x) && (data != NoData || Truthy(y)))
  {
  }

  /** A data name of "NULL" given explicitly is treated like a missing "data" key. */
  lemma ExplicitNullIsMissing(spec: PlotSpec, path: string)
    requires "data" in spec && spec["data"] == Some("NULL")
    ensures PlotScript(spec, path) == PlotScript(map k | k in spec && k != "data" :: spec[k], path)
  {
    var other := map k | k in spec && k != "data" :: spec[k];
    assert Get(other, "data", NoData) == NoData;
    assert forall k :: k != "data" ==> Get(other, k, None) == Get(spec, k, None);
    assert Get(other, "plot_type", Some("geom_point")) == Get(spec, "plot_type", Some("geom_point"));
  }

  /** A text followed by anything starts with that text; anything followed by a text ends with it. */
  lemma AppendEnds(a: string, b: string)
    ensures StartsWith(a + b, a) && EndsWith(a + b, b)
  {
    assert (a + b)[..|a|] == a;
    assert (a + b)[|a + b| - |b|..] == b;
  }

  /** Every script starts with loading ggplot2 and ends with saving the plot to the output path. */
  lemma ScriptFraming(spec: PlotSpec, path: string)
    requires PlotScript(spec, path).Success?
    ensures StartsWith(PlotScript(spec, path).value, Preamble)
    ensures EndsWith(PlotScript(spec, path).value, SaveLine(path))
  {
    var body := Opening(spec) + Layers(spec);
    AppendAssoc(Preamble, Opening(spec), Layers(spec));
    AppendAssoc(Preamble, body, SaveLine(path));
    AppendEnds(Preamble, body + SaveLine(path));
    AppendEnds(Preamble + body, SaveLine(path));
  }

  /** `iris` and `mtcars` are loaded with `data(...)` and named directly in the `ggplot` call. */
  lemma KnownDatasetScript(spec: PlotSpec, d: string)
    requires Get(spec, "data", NoData) == Some(d) && d in KnownDatasets
    requires Truthy(Get(spec, "x_variable", None))
    ensures SpecError(spec).None?
    ensures Opening(spec)
            == "data(" + d + ");\n" + ("p <- ggplot(" + d + ", " + Aes(Get(spec, "x_variable", None).value, Get(spec, "y_variable", None)) + ") + ")
  {
  }

  /**
   * A `.csv` file is read into a data frame named after the text before
   * its first dot, and that name is the `ggplot` data argument (unless the
   * name is "NULL").
   */
  lemma CsvScript(spec: PlotSpec, f: string)
    requires Get(spec, "data", NoData) == Some(f) && EndsWith(f, ".csv") && f !in KnownDatasets
    requires Stem(f) != "NULL"
    requires Truthy(Get(spec, "x_variable", None))
    ensures SpecError(spec).None?
    ensures Opening(spec)
            == Stem(f) + " <- read.csv('" + f + "');\n"
               + ("p <- ggplot(" + Stem(f) + ", " + Aes(Get(spec, "x_variable", None).value, Get(spec, "y_variable", None)) + ") + ")
  {
    assert f != "NULL";
    assert Frame(Some(f)) == Some(Stem(f));
  }

  /** Without a "data" key the plot is built from the mapping alone and has no colour line. */
  lemma DatalessScript(spec: PlotSpec)
    requires "data" !in spec
    requires Truthy(Get(spec, "x_variable", None)) && Truthy(Get(spec, "y_variable", None))
    ensures SpecError(spec).None?
    ensures Opening(spec) == "p <- ggplot(mapping=" + Aes(Get(spec, "x_variable", None).value, Get(spec, "y_variable", None)) + ") + "
    ensures ColorLine(Get(spec, "color_variable", None), Frame(Get(spec, "data", NoData))) == ""
  {
    assert DataLoadLine(NoData) == "" && Frame(NoData) == NoData;
    var call := PlotCall(NoData, Aes(Get(spec, "x_variable", None).value, Get(spec, "y_variable", None)));
    assert "" + call == call;
  }

  /** The aesthetic mapping puts x, and y when it is non-empty, in backticks. */
  lemma AesBackticks(x: string, y: Option<string>)
    ensures StartsWith(Aes(x, y), "aes(x=`" + x + "`")
    ensures Truthy(y) ==> EndsWith(Aes(x, y), ", y=`" + y.value + "`)")
    ensures !Truthy(y) ==> Aes(x, y) == "aes(x=`" + x + "`" + ")"
  {
    var head := "aes(x=`" + x + "`";
    if Truthy(y) {
      var tail := ", y=`" + y.value + "`)";
      assert Aes(x, y) == head + tail;
      AppendEnds(head, tail);
    } else {
      AppendEnds(head, ")");
    }
  }

  /**
   * The colour line is written exactly when the colour variable is
   * non-empty and the data name in force is not "NULL"; a file whose
   * stem is "NULL" counts as no data.
   */
  lemma ColorLineCases(spec: PlotSpec)
    ensures var data := Get(spec, "data", NoData);
            var color := Get(spec, "color_variable", None);
            ColorLine(color, Frame(data)) != ""
            <==> Truthy(color) && data != NoData && !(IsCsvData(data) && Stem(data.value) == "NULL")
  {
  }

  /**
   * The geom line: `geom_point` when the "plot_type" key is absent, and
   * otherwise the value as given, a present `None` rendering as "None".
   */
  lemma GeomCallCases(spec: PlotSpec)
    ensures "plot_type" !in spec ==> GeomCall(spec) == "geom_point();\n"
    ensures "plot_type" in spec ==> GeomCall(spec) == Show(spec["plot_type"]) + "();\n"
    ensures "plot_type" in spec && spec["plot_type"] == None ==> GeomCall(spec) == "None();\n"
  {
  }

  /** The reader's result with `t` put in front of the text read. */
  function After(t: string, read: Option<(string, string)>): Option<(string, string)>
  {
    match read
    case None => None
    case Some(p) => Some((t + p.0, p.1))
  }

  lemma AfterAfter(a: string, b: string, read: Option<(string, string)>)
    ensures After(a, After(b, read)) == After(a + b, read)
  {
    match read
    case None =>
    case Some(p) => assert a + (b + p.0) == (a + b) + p.0;
  }

  lemma AfterEmpty(read: Option<(string, string)>)
    ensures After([], read) == read
  {
    match read
    case None =>
    case Some(p) => assert [] + p.0 == p.0;
  }

  /** A character that is neither a quote nor a backslash is read as itself. */
  lemma ReadPlain(c: char, x: string)
    requires c != '\'' && c != '\\'
    ensures ReadQuoted([c] + x) == After([c], ReadQuoted(x))
  {
    assert ([c] + x)[0] == c && ([c] + x)[1..] == x;
  }

  /** A backslash followed by any character is read as that character. */
  lemma ReadBackslash(c: char, x: string)
    ensures ReadQuoted(['\\', c] + x) == After([c], ReadQuoted(x))
  {
    var w := ['\\', c] + x;
    assert w[0] == '\\' && w[1] == c && w[2..] == x;
  }

  /**
   * R reads an escaped backslash-free text as that text and then goes on
   * reading whatever follows it.
   */
  lemma {:induction false} ReadEscaped(t: string, rest: string)
    requires '\\' !in t
    ensures ReadQuoted(Escape(t) + rest) == After(t, ReadQuoted(rest))
  {
    if t == [] {
      assert Escape(t) + rest == rest;
      AfterEmpty(ReadQuoted(rest));
    } else {
      var tail := Escape(t[1..]) + rest;
      ReadEscaped(t[1..], rest);
      if t[0] == '\'' {
        assert Escape(t) + rest == ['\\', '\''] + tail;
        ReadBackslash('\'', tail);
      } else {
        assert Escape(t) + rest == [t[0]] + tail;
        ReadPlain(t[0], tail);
      }
      AfterAfter([t[0]], t[1..], ReadQuoted(rest));
      assert [t[0]] + t[1..] == t;
    }
  }

  /**
   * R reads an escaped text back as that text, and the literal closes at
   * the quote written after it, for every text without a backslash.
   */
  lemma EscapeRoundTrip(s: string, rest: string)
    requires '\\' !in s
    ensures ReadQuoted(Escape(s) + "'" + rest) == Some((s, rest))
  {
    ReadEscaped(s, "'" + rest);
    assert Escape(s) + "'" + rest == Escape(s) + ("'" + rest);
    assert ReadQuoted("'" + rest) == Some(([], rest));
    assert s + [] == s;
  }

  /** `Escape` leaves a trailing backslash as it is. */
  lemma EscapeTrailingBackslash(t: string)
    ensures Escape(t + "\\") == Escape(t) + "\\"
  {
    ReplaceCharAppend(t, "\\", '\'', "\\'");
    ReplaceCharSingle('\\', '\'', "\\'");
  }

  /** After an escaped backslash-free text, a trailing backslash makes R read the quote after it as text. */
  lemma BackslashEscapesQuote(t: string, x: string)
    requires '\\' !in t
    ensures ReadQuoted(Escape(t + "\\") + "'" + x) == After(t + "'", ReadQuoted(x))
  {
    EscapeTrailingBackslash(t);
    assert Escape(t + "\\") + "'" + x == Escape(t) + (['\\', '\''] + x);
    ReadEscaped(t, ['\\', '\''] + x);
    ReadBackslash('\'', x);
    AfterAfter(t, "'", ReadQuoted(x));
  }

  /** The rest of a title line holds no quote: R reads through it and finds no closing quote there. */
  lemma LineTail(more: string)
    ensures ReadQuoted(");\n" + more) == After(");\n", ReadQuoted(more))
    ensures ReadQuoted(");\n") == None
  {
    var line := ");\n";
    assert Escape(line) == line;
    ReadEscaped(line, more);
    ReadEscaped(line, []);
    assert line + [] == line;
  }

  /**
   * A backslash-free text followed by one backslash: the backslash escapes
   * the quote meant to close the title line, so the literal is not closed
   * on that line, and in a longer script it runs on, taking the rest of the
   * line with it, up to the next quote R reads as closing.
   */
  lemma TrailingBackslashOpen(t: string, more: string)
    requires '\\' !in t
    ensures ReadQuoted(Escape(t + "\\") + "');\n") == None
    ensures ReadQuoted(Escape(t + "\\") + "');\n" + more) == After(t + "');\n", ReadQuoted(more))
  {
    var e := Escape(t + "\\");
    BackslashEscapesQuote(t, ");\n" + more);
    BackslashEscapesQuote(t, ");\n");
    LineTail(more);
    assert e + "');\n" + more == e + "'" + (");\n" + more);
    assert e + "');\n" == e + "'" + ");\n";
    AfterAfter(t + "'", ");\n", ReadQuoted(more));
    assert (t + "'") + ");\n" == t + "');\n";
  }

  /** In an escaped text every quote has a backslash right before it. */
  lemma {:induction false} EscapedQuotesArePreceded(s: string)
    ensures forall i :: 0 <= i < |Escape(s)| && Escape(s)[i] == '\'' ==> i > 0 && Escape(s)[i - 1] == '\\'
  {
    if s != [] {
      EscapedQuotesArePreceded(s[1..]);
      var tail := Escape(s[1..]);
      var head := if s[0] == '\'' then "\\'" else [s[0]];
      assert Escape(s) == head + tail;
      forall i | 0 <= i < |Escape(s)| && Escape(s)[i] == '\''
        ensures i > 0 && Escape(s)[i - 1] == '\\'
      {
        if i >= |head| {
          assert Escape(s)[i] == tail[i - |head|];
        }
      }
    }
  }

  /** A title or axis-label line is written exactly for a non-empty value. */
  lemma LabsLineCases(arg: string, v: Option<string>)
    ensures LabsLine(arg, v) != "" <==> Truthy(v)
    ensures Truthy(v) ==> LabsLine(arg, v) == "p <- p + labs(" + arg + "='" + Escape(v.value) + "');\n"
  {
  }

  /**
   * A "data" key that is absent and one that is present with `None` give
   * different plots: the first is built from the mapping alone, the
   * second names its data `None`.
   */
  lemma MissingDataVersusNone(spec: PlotSpec)
    requires SpecError(spec).None?
    ensures "data" !in spec ==>
      Opening(spec) == "p <- ggplot(mapping=" + Aes(Get(spec, "x_variable", None).value, Get(spec, "y_variable", None)) + ") + "
    ensures "data" in spec && spec["data"] == None ==>
      Opening(spec) == "p <- ggplot(None, " + Aes(Get(spec, "x_variable", None).value, Get(spec, "y_variable", None)) + ") + "
  {
    var call := PlotCall(Frame(Get(spec, "data", NoData)), Aes(Get(spec, "x_variable", None).value, Get(spec, "y_variable", None)));
    if "data" !in spec || spec["data"] == None {
      assert DataLoadLine(Get(spec, "data", NoData)) == "";
      assert "" + call == call;
    }
  }

  /**
   * A plot with x only and no data is built only after reading a file
   * whose name before the first dot is "NULL": with no "data" key, data
   * "NULL" and an empty y already raise.
   */
  lemma DatalessXOnlyNeedsNullStem(spec: PlotSpec)
    requires SpecError(spec).None? && !Truthy(Get(spec, "y_variable", None))
    ensures var data := Get(spec, "data", NoData);
            Frame(data) == NoData <==> IsCsvData(data) && Stem(data.value) == "NULL"
  {
  }

  /** The name `NULL.csv` is a CSV file whose stem is NULL. */
  lemma NullCsvStem()
    ensures Stem("NULL.csv") == "NULL"
    ensures IsCsvData(Some("NULL.csv"))
  {
    assert EndsWith("NULL.csv", ".csv");
    assert "NULL.csv" !in KnownDatasets;
  }

  /** A file called `NULL.csv` is read into a data frame named NULL. */
  lemma NullStemLoads()
    ensures DataLoadLine(Some("NULL.csv")) == "NULL" + " <- read.csv('" + "NULL.csv" + "');\n"
    ensures Frame(Some("NULL.csv")) == NoData
  {
    NullCsvStem();
  }

  /**
   * After reading `NULL.csv` the plot is built as if there were no data:
   * the mapping form, and no colour line even though a colour variable
   * is given.
   */
  lemma NullStemScript()
    ensures PlotCall(Frame(Some("NULL.csv")), Aes("a", None)) == "p <- ggplot(mapping=aes(x=`a`)) + "
    ensures ColorLine(Some("c"), Frame(Some("NULL.csv"))) == ""
  {
    NullStemLoads();
  }
}
