# Plot-description parser and ggplot2 script builder

This project models the two deterministic parts of a natural-language plotting
assistant:

- **The rule-based description parser** (`NLPProcessor.parse_description` in
  `nlp_processor.py`). It scans a tokenised sentence and fills an eight-entry
  plot record: plot type, data source, x/y/colour variable, title, and x/y
  label. It uses fixed keyword and pattern rules and the helpers
  `_extract_phrase` and `_extract_quoted_or_text`.
- **The R script builder** (the command-building part of
  `RInterface.generate_plot` in `r_interface.py`). It turns a plot
  specification into a ggplot2 script, or raises one of two validation errors.

## How the model is laid out

- **Tokens and documents** (`tokens.dfy`). A token is a value with text,
  lemma (`baseForm`, because `lemma` is a Dafny keyword), part-of-speech tag,
  quote flag, head index and dependency label. A document is a sequence of
  tokens.
  - `WellFormed` says every head index is in range.
  - The children of a token are the other tokens whose head it is, in
    document order.
- **Strings** (`strings.dfy`): Python truthiness of an optional string,
  `lower`, `startswith`/`endswith`, substring tests, `strip`, and
  `" ".join`.
- **Phrase extraction** (`phrase.dfy`). `_extract_phrase` is the method
  `ExtractPhrase`.
  - Its two collection loops are the methods `CollectQuoted` and
    `CollectRun`.
  - Each is proved equal to a specification function (`Collected`, then
    `Phrase`).
- **The plot record** (`plot_info.dfy`): a datatype with one optional string
  per key, and the final quote-stripping clean-up.
- **The per-token rules of the main loop** (`rules.dfy`). These are pure
  functions from the record before to the record after.
  - Title, x label, y label, x variable, y variable and colour are taken in
    source order.
  - `Step` composes them.
- **`parse_description`** (`parser.dfy`). It is the method
  `ParseDescription`, which calls one method per loop of the source: plot
  type, data file, data patterns, the rule loop, the "using" fallback, and
  clean-up.
  - Each loop method is proved equal to a specification function.
  - `Parsed` composes those functions.
  - `parser_props.dfy` proves what the result is.
- **The R script** (`r_script.dfy`). `GeneratePlot` appends the lines as the
  source does and is proved equal to `PlotScript`. The script is the preamble,
  then `Opening`, `Layers` and `SaveLine` in that order.
  - A missing key and a key present with `None` are kept apart: `Get` models
    `dict.get` with its default.
  - `None` rendered in an f-string is the text `None`.
  - `r_script_props.dfy` proves the errors, the framing, the data-loading
    forms, the colour rule, and the escaping.

### Behaviour of the source that the model keeps as written

These points follow from the code and are reproduced exactly:

- `_extract_phrase` with `allow_punct_in_phrase` accepts a token when its text
  is a substring of `().-/:`. That includes the empty text.
- The last branch of the title rule ("title should be X",
  nlp_processor.py:91-93) can never run, because line 79 already took every
  token whose lemma is `title`. "title should be X" therefore never sets a
  title (`Rules.TitleShouldBeIgnored`).
- The "using" fallback after the main loop (nlp_processor.py:196-201) can only
  change the data source when the pattern loop already matched. Every
  position it accepts is also accepted by the pattern loop's "using" rule. So
  it only fires when the pattern loop stored an empty text
  (`ParserProperties.NoSourceNoData`).
- In `generate_plot`, an x-only plot without data (r_interface.py:65-66) is
  reachable only when the data is a file whose name before the first dot is
  `NULL`, such as `NULL.csv` (`RScriptProperties.DatalessXOnlyNeedsNullStem`).
  Without such a file, data `'NULL'` with a missing y already raises at
  line 34. The same file also suppresses the
  colour line (`RScriptProperties.NullStemScript`).
- Title and label text has its single quotes escaped but not its
  backslashes (r_interface.py:91, 97, 103). A text without a backslash is
  read back by R exactly (`RScriptProperties.EscapeRoundTrip`). If such a
  text is followed by one backslash, that backslash escapes the quote meant
  to close the literal. The literal is then not closed on the title line,
  and in the whole script it runs on to the next quote R reads as closing
  (`RScriptProperties.TrailingBackslashOpen`).

## Model

| member | source | states |
|---|---|---|
| Strings.StripLeft | nlp_processor.py:264 | the result is a suffix of the input, every removed character is in the strip set, and the result does not start with one |
| Strings.StripRight | nlp_processor.py:264 | the result is a prefix of the input, every removed character is in the strip set, and the result does not end with one |
| Strings.Strip | nlp_processor.py:207 | `str.strip(chars)`: never longer than the input, and a non-empty result neither starts nor ends with a strip character |
| Strings.StripIsSlice | nlp_processor.py:207 | the stripped text is a contiguous slice of the input with only strip characters before and after it |
| Strings.StripIdempotent | nlp_processor.py:205-207 | stripping twice gives the same as stripping once |
| Tokens.FirstChildWithDep | nlp_processor.py:186-189 | the first child (in document order) of a token with the given dependency label, or none when no child has it |
| Phrases.QuoteEnd | nlp_processor.py:236-238 | the index of the first quote token at or after a position, or the document length if there is none |
| Phrases.RunEnd | nlp_processor.py:241-252 | the index of the first token at or after a position that may not be part of a multi-token phrase |
| Phrases.QuotedOrText | nlp_processor.py:212-223 | `_extract_quoted_or_text` returns a text no longer than the token text, with no `'`, `"` or space at either end |
| Phrases.QuotedOrTextIsSlice | nlp_processor.py:212-223 | that text is a contiguous slice of the token text with only `'`, `"` and spaces before and after it |
| Phrases.CollectQuoted | nlp_processor.py:233-239 | the loop collects exactly the texts between the opening quote and the next quote token, or to the end |
| Phrases.CollectRun | nlp_processor.py:240-252 | the loop collects exactly the texts of the maximal run of allowed tokens that begins at the start index |
| Phrases.ExtractPhrase | nlp_processor.py:225-264 | `_extract_phrase` returns `Phrase`: nothing past the end, otherwise the collected texts joined by spaces and stripped, or None when nothing was collected |
| Phrases.PhraseNoneCases | nlp_processor.py:228-264 | the phrase is None exactly past the end, at a quote that is the last token or is followed by a quote, at a token that cannot start a run in multi-token mode, or at a non-name token in single-token mode |
| Phrases.PhraseNoneIffNothingCollected | nlp_processor.py:228-264 | the phrase is None past the end of the document and exactly when no token was collected; otherwise it is the stripped space-joined texts |
| Phrases.QuotedPhrase | nlp_processor.py:233-239 | from a quote token, the phrase is the texts strictly between it and the next quote (or the end), and None exactly when nothing lies between the quote and the next quote or the end |
| Phrases.RunPhrase | nlp_processor.py:240-252 | in multi-token mode the phrase is the maximal run of allowed tokens, and None exactly when the first token is not allowed |
| Phrases.SingleNamePhrase | nlp_processor.py:255-261 | in single-token mode zero, one or three texts are collected: none for a non-name token, else the name token, followed by "." and the next token's text exactly when the next two tokens are a dot and a NOUN, PROPN, SYM or X token |
| PlotInfos.CleanValueIsClean | nlp_processor.py:206-207 | a cleaned value has no quote or space at either end, and cleaning it again changes nothing |
| PlotInfos.CleanedIsClean | nlp_processor.py:204-207 | after clean-up no non-empty entry starts or ends with `'`, `"` or a space, and a second clean-up changes nothing |
| PlotInfos.CleanValueOfClean | nlp_processor.py:206-207 | a value that is already clean is left unchanged by clean-up |
| PlotInfos.CleanedByFields | nlp_processor.py:205-207 | visiting every key once and cleaning its value yields the cleaned record |
| Rules.TitleRule | nlp_processor.py:77-93 | only the title may change, only while it is empty, and only to a non-empty phrase |
| Rules.LabelRule | nlp_processor.py:96-108 | only the given label may change, only while it is empty, and only to a non-empty phrase |
| Rules.XRule | nlp_processor.py:112-142 | nothing changes once x is filled; only x and y may change, and y only while it is empty |
| Rules.YRule | nlp_processor.py:145-173 | only y may change, and only while it is empty |
| Rules.ColorRule | nlp_processor.py:176-191 | only the colour variable may change, and only while it is empty |
| Rules.Step | nlp_processor.py:73-191 | one iteration of the main loop never touches plot type or data and never overwrites a filled title, label or variable |
| Rules.TitleShouldBeIgnored | nlp_processor.py:78-93 | "title should be X" leaves the record unchanged |
| Rules.OfSetsXOnlyForHistogram | nlp_processor.py:136-138 | "of V" under a plot, histogram or chart sets x to V only when the plot type is `geom_histogram` and x is empty, and changes nothing for any other plot type |
| DescriptionParser.TokenPlotType | nlp_processor.py:26-39 | scatter, bar, histogram and line give geom_point, geom_bar, geom_histogram and geom_line; the lemma is looked up first and the lower-cased text only when the lemma is no keyword; no keyword gives none |
| DescriptionParser.FirstDataFile | nlp_processor.py:43-46 | the first token whose text ends in `.csv`, `.json`, `.data` or `.txt`, or none if no token does |
| DescriptionParser.FirstDataPattern | nlp_processor.py:49-69 | the first token where one of the data-source patterns matches, or none |
| DescriptionParser.FirstUsingSource | nlp_processor.py:197-201 | the first "using N" whose N is none of the variables found, or none |
| DescriptionParser.RuleScan | nlp_processor.py:73-191 | after the main loop plot type and data are unchanged and every filled title, label and variable is kept |
| DescriptionParser.FillPlotType | nlp_processor.py:34-39 | the plot-type loop computes `WithPlotType` |
| DescriptionParser.FillDataFromFile | nlp_processor.py:42-46 | the file-name loop computes `WithFileData` |
| DescriptionParser.FillDataFromPatterns | nlp_processor.py:48-69 | the pattern loop computes `WithPatternData` |
| DescriptionParser.ApplyRules | nlp_processor.py:73-191 | the main loop computes `RuleScan` over the whole document |
| DescriptionParser.FillDataFromUsing | nlp_processor.py:196-201 | the fallback loop computes `WithFallbackData` |
| DescriptionParser.CleanUp | nlp_processor.py:205-207 | the clean-up loop computes `Cleaned` |
| DescriptionParser.ParseDescription | nlp_processor.py:12-210 | `parse_description` returns `Parsed(doc)`, and the result is clean |
| ParserProperties.PlotTypeBeforeKeyword | nlp_processor.py:34-39 | before the first keyword token the plot type is still unset |
| ParserProperties.PlotTypeIsFirstKeyword | nlp_processor.py:34-39 | once the first keyword token is visited, the plot type is its geom and later keywords never overwrite it |
| ParserProperties.NoKeywordNoPlotType | nlp_processor.py:34-39 | with no keyword token the plot type stays unset |
| ParserProperties.ScanStep | nlp_processor.py:73-191 | each main-loop iteration keeps every filled field of the record before it |
| ParserProperties.RuleScanKeepsFilled | nlp_processor.py:78-177 | write-once: a title, label or variable filled after m tokens is unchanged after any later n tokens |
| ParserProperties.ParsedPlotType | nlp_processor.py:26-39 | the returned plot type is the geom of the first keyword token, or None if there is no keyword |
| ParserProperties.DataFileWins | nlp_processor.py:42-48 | if a token names a data file, the first such token (stripped) is the data source, and the pattern loop and the fallback do not change it |
| ParserProperties.PatternDataWins | nlp_processor.py:48-69 | with no data file, the first matching pattern supplies the data source when its value is non-empty |
| ParserProperties.UsingSourceIsPattern | nlp_processor.py:196-201 | every position the fallback accepts is one where the pattern loop matches |
| ParserProperties.NoSourceNoData | nlp_processor.py:196-201 | with no data file and no pattern match the data source stays None, so the fallback adds nothing |
| ParserProperties.ParsedIsClean | nlp_processor.py:204-210 | the returned record is clean, and cleaning it again changes nothing |
| RScript.ReplaceChar | r_interface.py:91 | replacing a character by a text that does not contain it leaves none of it, and a text without it is unchanged |
| RScript.ReplaceCharAppend | r_interface.py:91 | replacing in a concatenation is replacing in each part and concatenating |
| RScript.ReplaceCharSingle | r_interface.py:91 | on one character the result is the replacement for the replaced character and the character itself otherwise |
| RScript.ForwardSlashes | r_interface.py:108 | the path keeps its length, has no backslash left, and every other character is unchanged |
| RScript.Stem | r_interface.py:49-50 | `split('.')[0]` is a dot-free prefix of the name, followed by a dot whenever it is shorter |
| RScript.LoadData | r_interface.py:37-53 | the data-loading step appends `DataLoadLine` and switches the data name to `Frame` |
| RScript.BasePlot | r_interface.py:56-70 | the `ggplot(...)` call for a non-empty x, or the missing-x error |
| RScript.AppendLayers | r_interface.py:72-104 | the geom, colour, title, x-label and y-label lines are appended in that order |
| RScript.GeneratePlot | r_interface.py:28-109 | the built script, or the error raised, is `PlotScript` |
| RScriptProperties.ErrorCases | r_interface.py:33-70 | the missing-data error exactly when data is `'NULL'` and x or y is empty; the missing-x error exactly when there is data and x is empty; success otherwise |
| RScriptProperties.ExplicitNullIsMissing | r_interface.py:30-37 | data given as `'NULL'` gives the same result as no "data" key |
| RScriptProperties.ScriptFraming | r_interface.py:28-109 | every script starts with `library(ggplot2);` and ends with the `ggsave` line for the output path |
| RScriptProperties.KnownDatasetScript | r_interface.py:38-62 | for iris or mtcars the script loads it with `data(...)` and passes it to `ggplot` |
| RScriptProperties.CsvScript | r_interface.py:48-62 | for a `.csv` file whose stem is not `NULL`, the script reads it into a frame named by its stem and passes that name to `ggplot` |
| RScriptProperties.DatalessScript | r_interface.py:57-79 | without a data key the plot uses `ggplot(mapping=...)` and gets no colour line |
| RScriptProperties.AesBackticks | r_interface.py:57-68 | the mapping puts x, and a non-empty y, in backticks |
| RScriptProperties.ColorLineCases | r_interface.py:76-79 | the colour line is written exactly for a non-empty colour with data present, where a `NULL` stem counts as no data |
| RScriptProperties.GeomCallCases | r_interface.py:72-73 | an absent "plot_type" key gives `geom_point();`; a present value is written as given, None as `None();` |
| RScriptProperties.ReadEscaped | r_interface.py:91-104 | R reads an escaped backslash-free text as that text and then goes on reading what follows |
| RScriptProperties.EscapeRoundTrip | r_interface.py:91-104 | for a text without a backslash, R reads the escaped text back as the text, and the literal ends at the quote written after it |
| RScriptProperties.TrailingBackslashOpen | r_interface.py:89-92 | for a backslash-free text followed by one backslash, the title line's literal does not close on that line, and with more text after it R reads on, taking `');` and the newline into the string, up to the next closing quote |
| RScriptProperties.EscapedQuotesArePreceded | r_interface.py:91-92 | every quote in an escaped text has a backslash right before it |
| RScriptProperties.LabsLineCases | r_interface.py:89-104 | a title or label line is written exactly for a non-empty value, with the value escaped |
| RScriptProperties.MissingDataVersusNone | r_interface.py:30-62 | for every accepted specification, an absent data key gives the mapping-only call, while a data key holding None gives `ggplot(None, ...)` |
| RScriptProperties.DatalessXOnlyNeedsNullStem | r_interface.py:30-66 | with x only, the plot is built without data exactly when the data is a CSV file whose name before the first dot is `NULL` |
| RScriptProperties.NullCsvStem | r_interface.py:48-50 | `NULL.csv` is a CSV file whose stem is `NULL` |
| RScriptProperties.NullStemLoads | r_interface.py:48-50 | `NULL.csv` is read into a frame named `NULL`, which then counts as no data |
| RScriptProperties.NullStemScript | r_interface.py:59-79 | after reading `NULL.csv` the plot uses the mapping-only form and drops the colour line |

## Left out

- RScriptProperties.EscapeRoundTrip: stated only for texts without a
  backslash, because the source escapes quotes and not backslashes, and a
  text with one may not read back (`TrailingBackslashOpen`).
- `RScript.ReadQuoted` reads every backslash as taking the next character
  literally. This holds for the escapes `\'` and `\\`. R's other escapes,
  such as `\n` or `\t`, are not modelled.
- spaCy model loading and download (nlp_processor.py:4-10), and how spaCy
  computes lemmas, tags, dependencies and quote flags: tokens are given values.
- `str.lower()` is modelled on ASCII letters only.
- The whitespace set of `str.strip()` is modelled as a fixed set of
  characters.
- The branch at nlp_processor.py:91-93 is unreachable and has no code in the
  model; `Rules.TitleShouldBeIgnored` states its effect.
- Rules.TitleRule, Rules.LabelRule, Rules.XRule, Rules.YRule, Rules.ColorRule:
  their contracts state the frame and the write-once behaviour, not which
  phrase each pattern picks; the function bodies are the model of the
  patterns.
- The Rserve connection and its check, `conn.eval`, and `close`
  (r_interface.py:5-19, 112, 126-129): network I/O to a foreign process.
- Directory creation, `os.path.abspath`, the return value, the prints and
  the exception handlers (r_interface.py:22-26, 53, 111-124): filesystem and
  console I/O. A `.json` data file therefore adds no line, as in the source,
  and the warning it prints is not modelled.
- Non-string values in the plot specification: the parser only produces
  strings or None, so `isinstance(data_name, str)` is modelled as the value
  being present.
- The demo blocks (nlp_processor.py:267-309, r_interface.py:132-235), the
  HTTP backend, the command-line loop, the configuration and the LLM agent
  graph are not part of this model.
