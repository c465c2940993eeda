/** Model of src/endpoint/glossary.rs: the request that creates a glossary,
    the text body its entries are sent in (tab- or comma-separated lines),
    and the parsing of the tab-separated body returned when the entries of a
    glossary are retrieved. */
module Glossary {
  import opened Wrappers
  import opened Text
  import opened GlossaryLanguages
  import opened Endpoint
  import opened DeepL

  /** One glossary entry: a source term and its target term. */
  type Entry = (string, string)

  /** Format used for the entries of a new glossary. */
  datatype EntriesFormat = TSV | CSV

  /** `Display for EntriesFormat`: the `entries_format` token. */
  function FormatToken(f: EntriesFormat): (token: string)
    ensures token == "tsv" <==> f == TSV
    ensures token == "csv" <==> f == CSV
  {
    match f
    case TSV => "tsv"
    case CSV => "csv"
  }

  /** The character that separates the two terms of a line. */
  function Separator(f: EntriesFormat): (sep: char)
    ensures sep != '\n'
  {
    match f
    case TSV => '\t'
    case CSV => ','
  }

  // ---------------------------------------------------------------------
  // The builder and the request parameters
  // ---------------------------------------------------------------------

  /** `CreateGlossaryBuilder`: the fields collected so far. */
  datatype CreateGlossaryBuilder = CreateGlossaryBuilder(
    client: DeepLApi,
    name: string,
    sourceLang: Option<GlossaryLanguage>,
    targetLang: Option<GlossaryLanguage>,
    entries: Option<seq<Entry>>,
    format: Option<EntriesFormat>)

  /** `CreateGlossary`: a complete request. */
  datatype CreateGlossary = CreateGlossary(
    client: DeepLApi,
    name: string,
    sourceLang: GlossaryLanguage,
    targetLang: GlossaryLanguage,
    entries: seq<Entry>,
    format: EntriesFormat)

  /** `DeepLApi::create_glossary(name)`: a builder with the client and the
      name, and nothing else yet. */
  function CreateGlossaryStart(api: DeepLApi, name: string): (b: CreateGlossaryBuilder)
    ensures b.client == api && b.name == name
    ensures b.sourceLang.None? && b.targetLang.None? && b.entries.None? && b.format.None?
  {
    CreateGlossaryBuilder(api, name, None, None, None, None)
  }

  /** The `entries` setter: every item becomes a pair of strings, each part
      converted by its `to_string`, in the order the iterator yields them. */
  function ConvertEntries<S, T>(items: seq<(S, T)>, showS: S -> string, showT: T -> string): (es: seq<Entry>)
    ensures |es| == |items|
    ensures forall i :: 0 <= i < |items| ==> es[i].0 == showS(items[i].0) && es[i].1 == showT(items[i].1)
  {
    if |items| == 0 then []
    else [(showS(items[0].0), showT(items[0].1))] + ConvertEntries(items[1..], showS, showT)
  }

  /** `entries(iter)`: only a builder whose entries are still unset has the
      setter (the type state of the builder enforces this at compile time);
      every other field is kept. */
  function WithEntries<S, T>(b: CreateGlossaryBuilder, items: seq<(S, T)>,
                             showS: S -> string, showT: T -> string): (r: CreateGlossaryBuilder)
    requires b.entries.None?
    ensures r.entries.Some? && r.entries.value == ConvertEntries(items, showS, showT)
    ensures r == b.(entries := r.entries)
  {
    b.(entries := Some(ConvertEntries(items, showS, showT)))
  }

  /** The builder's build step (named `send`): it exists only once the
      languages and the entries are set; a missing format means TSV. */
  function Build(b: CreateGlossaryBuilder): (g: CreateGlossary)
    requires b.sourceLang.Some? && b.targetLang.Some? && b.entries.Some?
    ensures g.client == b.client && g.name == b.name && g.entries == b.entries.value
    ensures g.sourceLang == b.sourceLang.value && g.targetLang == b.targetLang.value
    ensures b.format.None? ==> g.format == TSV
    ensures b.format.Some? ==> g.format == b.format.value
  {
    CreateGlossary(b.client, b.name, b.sourceLang.value, b.targetLang.value,
                   b.entries.value, b.format.GetOr(TSV))
  }

  /** `CreateGlossaryRequestParam`: the JSON body of the create request. */
  datatype CreateGlossaryRequestParam = CreateGlossaryRequestParam(
    name: string,
    sourceLang: string,
    targetLang: string,
    entries: string,
    entriesFormat: string)

  /** One line per entry: the two terms around the format's separator. */
  function FormatLines(es: seq<Entry>, sep: char): (lines: seq<string>)
    ensures |lines| == |es|
    ensures forall i :: 0 <= i < |es| ==> lines[i] == es[i].0 + [sep] + es[i].1
  {
    if |es| == 0 then []
    else [es[0].0 + [sep] + es[0].1] + FormatLines(es[1..], sep)
  }

  /** The entries body: the lines joined by newlines. */
  function EncodeEntries(f: EntriesFormat, es: seq<Entry>): string
  {
    Join(FormatLines(es, Separator(f)), "\n")
  }

  /** `From<CreateGlossary> for CreateGlossaryRequestParam`. The languages
      are sent as the lower-cased `Display` text, which is the code itself;
      the format token names the format the entries are encoded in. */
  function ToRequestParam(g: CreateGlossary): (p: CreateGlossaryRequestParam)
    ensures p.name == g.name
    ensures p.sourceLang == GlossaryLanguages.AsRef(g.sourceLang)
    ensures p.targetLang == GlossaryLanguages.AsRef(g.targetLang)
    ensures p.entriesFormat == "tsv" <==> g.format == TSV
    ensures p.entriesFormat == "csv" <==> g.format == CSV
    ensures p.entries == EncodeEntries(g.format, g.entries)
  {
    LowercaseKeepsCode(g.sourceLang);
    LowercaseKeepsCode(g.targetLang);
    CreateGlossaryRequestParam(
      g.name,
      ToLowercase(Display(g.sourceLang)),
      ToLowercase(Display(g.targetLang)),
      EncodeEntries(g.format, g.entries),
      FormatToken(g.format))
  }

  // ---------------------------------------------------------------------
  // Parsing the retrieved entries
  // ---------------------------------------------------------------------

  /** The message of an `unwrap()` on `None`. */
  const UnwrapNone: string := "called `Option::unwrap()` on a `None` value"

  /** The closure applied to one line: the first two pieces of
      `line.split("\t")`, the second unwrapped. A line without a tab panics;
      text after a second tab is dropped. */
  function ParseLine(line: string): (r: Outcome<Entry>)
  {
    var pair := Split(line, '\t');
    if |pair| < 2 then Panics(UnwrapNone) else Returns((pair[0], pair[1]))
  }

  /** What `ParseLine` promises: it returns exactly when the line holds a
      tab, and then the first term is the text before the first tab and the
      second the text up to the next tab or the end of the line. */
  lemma ParseLineMeaning(line: string)
    ensures ParseLine(line).Returns? <==> '\t' in line
    ensures ParseLine(line).Panics? ==> ParseLine(line).message == UnwrapNone
    ensures ParseLine(line).Returns? ==>
      var (x, y) := ParseLine(line).value;
      && '\t' !in x && '\t' !in y
      && |x| + 1 + |y| <= |line|
      && line[..|x|] == x && line[|x|] == '\t' && line[|x| + 1..|x| + 1 + |y|] == y
      && (|x| + 1 + |y| == |line| || line[|x| + 1 + |y|] == '\t')
  {
    var pair := Split(line, '\t');
    SplitHasSeveralPieces(line, '\t');
    if |pair| >= 2 {
      var x, y := pair[0], pair[1];
      var tail := Join(pair[1..], "\t");
      assert line == x + "\t" + tail;
      if |pair| == 2 {
        assert tail == y;
      } else {
        assert tail == y + "\t" + Join(pair[2..], "\t");
      }
      assert line[|x| + 1..] == tail;
    }
  }

  /** `map(..).collect()` over the lines: the entries in order, or the panic
      of the first line that has no tab. */
  function ParseLines(lines: seq<string>): (r: Outcome<seq<Entry>>)
    ensures r.Returns? <==> forall i :: 0 <= i < |lines| ==> ParseLine(lines[i]).Returns?
    ensures r.Returns? ==> |r.value| == |lines|
    ensures r.Returns? ==> forall i :: 0 <= i < |lines| ==> ParseLine(lines[i]) == Returns(r.value[i])
  {
    if |lines| == 0 then Returns([])
    else
      match ParseLine(lines[0])
      case Panics(m) => Panics(m)
      case Returns(e) =>
        match ParseLines(lines[1..])
        case Panics(m) => Panics(m)
        case Returns(rest) => Returns([e] + rest)
  }

  /** The body split on newlines, each line parsed. */
  function ParseTsv(body: string): Outcome<seq<Entry>>
  {
    ParseLines(Split(body, '\n'))
  }

  /** The empty body is one empty line, which has no tab: parsing panics. */
  lemma ParseEmptyBodyPanics()
    ensures ParseTsv("").Panics?
  {
    assert Split("", '\n') == [""];
    assert ParseLine("").Panics?;
  }

  /** What the entries request may come back with: the request could not be
      sent, its body could not be read, or the body text. */
  datatype EntriesResponse = SendFailed(sendError: string) | TextFailed(textError: string) | Body(text: string)

  /** `retrieve_glossary_entries`: a send failure and an unreadable body are
      `RequestFail`s, the second one with a prefix; the body is parsed as TSV
      whatever the status was, so a line without a tab panics. */
  function RetrieveGlossaryEntries(resp: EntriesResponse): (r: Outcome<Result<seq<Entry>, Error>>)
    ensures resp.SendFailed? ==> r == Returns(Err(RequestFail(resp.sendError)))
    ensures resp.TextFailed? ==>
      r == Returns(Err(RequestFail("fail to retrieve glossary entries: " + resp.textError)))
    ensures resp.Body? ==> (r.Panics? <==> ParseTsv(resp.text).Panics?)
    ensures resp.Body? && r.Returns? ==> r.value == Ok(ParseTsv(resp.text).value)
  {
    match resp
    case SendFailed(e) => Returns(Err(RequestFail(e)))
    case TextFailed(e) => Returns(Err(RequestFail("fail to retrieve glossary entries: " + e)))
    case Body(text) =>
      match ParseTsv(text)
      case Panics(m) => Panics(m)
      case Returns(es) => Returns(Ok(es))
  }

  // ---------------------------------------------------------------------
  // Encoding and parsing together
  // ---------------------------------------------------------------------

  /** No term holds the given character. */
  predicate TermsAvoid(es: seq<Entry>, c: char)
  {
    forall i :: 0 <= i < |es| ==> c !in es[i].0 && c !in es[i].1
  }

  /** A term pair with no separator inside splits back into the pair. */
  lemma {:induction false} LineSplitsIntoTerms(x: string, y: string, sep: char)
    requires sep !in x && sep !in y
    ensures Split(x + [sep] + y, sep) == [x, y]
  {
    SplitAround(x, y, sep);
    SplitWithoutSeparator(x, sep);
    SplitWithoutSeparator(y, sep);
  }

  /** With no newline in any term, a body of either format has one line per
      entry, in order. */
  lemma {:induction false} EncodedLines(f: EntriesFormat, es: seq<Entry>)
    requires |es| >= 1
    requires TermsAvoid(es, '\n')
    ensures Split(EncodeEntries(f, es), '\n') == FormatLines(es, Separator(f))
  {
    var lines := FormatLines(es, Separator(f));
    forall i | 0 <= i < |lines|
      ensures '\n' !in lines[i]
    {
      assert lines[i] == es[i].0 + [Separator(f)] + es[i].1;
    }
    SplitJoin(lines, '\n');
  }

  /** Every tab-separated line of clean entries parses back to its entry. */
  lemma {:induction false} ParseFormattedLines(es: seq<Entry>)
    requires TermsAvoid(es, '\t')
    ensures ParseLines(FormatLines(es, '\t')) == Returns(es)
  {
    if |es| > 0 {
      LineSplitsIntoTerms(es[0].0, es[0].1, '\t');
      assert TermsAvoid(es[1..], '\t');
      ParseFormattedLines(es[1..]);
      assert FormatLines(es, '\t')[1..] == FormatLines(es[1..], '\t');
      assert [es[0]] + es[1..] == es;
    }
  }

  /** Round trip: the entries retrieved from a TSV body are the entries that
      were encoded, when there is at least one and no term holds a tab or a
      newline. */
  lemma TsvRoundTrip(es: seq<Entry>)
    requires |es| >= 1
    requires TermsAvoid(es, '\t') && TermsAvoid(es, '\n')
    ensures ParseTsv(EncodeEntries(TSV, es)) == Returns(es)
    ensures RetrieveGlossaryEntries(Body(EncodeEntries(TSV, es))) == Returns(Ok(es))
  {
    EncodedLines(TSV, es);
    ParseFormattedLines(es);
  }

  /** The TSV encoding of clean, non-empty entry lists is injective. */
  lemma TsvEncodingInjective(a: seq<Entry>, b: seq<Entry>)
    requires |a| >= 1 && TermsAvoid(a, '\t') && TermsAvoid(a, '\n')
    requires |b| >= 1 && TermsAvoid(b, '\t') && TermsAvoid(b, '\n')
    ensures EncodeEntries(TSV, a) == EncodeEntries(TSV, b) ==> a == b
  {
    TsvRoundTrip(a);
    TsvRoundTrip(b);
  }

  /** The CSV body does not quote its terms, so a comma inside a term is
      read as the separator: these two different glossaries are sent as the
      same text. */
  lemma CsvCommaIsAmbiguous()
    ensures EncodeEntries(CSV, [("a,b", "c")]) == EncodeEntries(CSV, [("a", "b,c")])
  {
    var left, right := FormatLines([("a,b", "c")], ','), FormatLines([("a", "b,c")], ',');
    assert left[0] == "a,b" + [','] + "c" == "a" + [','] + "b,c" == right[0];
    assert left == right;
  }

  /** The two entries of the crate's glossary test. The test creates them in
      CSV; this lemma assumes the service replies to the entries request
      with the TSV encoding of what it stored, and shows that under that
      assumption the entries are retrieved unchanged. */
  lemma GlossaryTestEntries()
    ensures RetrieveGlossaryEntries(Body(EncodeEntries(TSV, [("Hello", "Guten Tag"), ("Bye", "Auf Wiedersehen")])))
         == Returns(Ok([("Hello", "Guten Tag"), ("Bye", "Auf Wiedersehen")]))
  {
    var es: seq<Entry> := [("Hello", "Guten Tag"), ("Bye", "Auf Wiedersehen")];
    assert TermsAvoid(es, '\t') && TermsAvoid(es, '\n');
    TsvRoundTrip(es);
  }

  // ---------------------------------------------------------------------
  // The unchecked status of the entries request
  // ---------------------------------------------------------------------

  /** A reply whose body has no tab at all, such as the JSON object the
      service sends with an error status, makes `retrieve_glossary_entries`
      panic: the body is parsed whatever the status was. */
  lemma BodyWithoutTabPanics(body: string)
    requires '\t' !in body
    ensures RetrieveGlossaryEntries(Body(body)).Panics?
  {
    var lines := Split(body, '\n');
    if |lines| > 1 {
      assert body == lines[0] + "\n" + Join(lines[1..], "\n");
    }
    assert body[..|lines[0]|] == lines[0];
    ParseLineMeaning(lines[0]);
  }

  /** The entries request as the other glossary requests are written: a
      reply whose status is not a success is turned into an error by
      `extract_deepl_error` before the body is parsed. `status` is the
      status line's display text. */
  function RetrieveGlossaryEntriesChecked(resp: EntriesResponse, success: bool, status: string)
    : (r: Outcome<Result<seq<Entry>, Error>>)
    ensures resp.SendFailed? || success ==> r == RetrieveGlossaryEntries(resp)
    ensures !resp.SendFailed? && !success ==> r.Returns? && r.value.Err? && r.value.error.RequestFail?
    ensures !resp.SendFailed? && !success ==>
      r.value == ExtractDeeplError(status, if resp.Body? then Some(resp.text) else None)
  {
    if resp.SendFailed? || success then RetrieveGlossaryEntries(resp)
    else Returns(ExtractDeeplError(status, if resp.Body? then Some(resp.text) else None))
  }

  /** With the status checked, a failed request never panics. */
  lemma CheckedErrorReplyDoesNotPanic(resp: EntriesResponse, status: string)
    ensures RetrieveGlossaryEntriesChecked(resp, false, status).Returns?
    ensures RetrieveGlossaryEntriesChecked(resp, false, status).value.Err?
  {
  }
}
