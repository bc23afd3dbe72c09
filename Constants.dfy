/** The format registry, the input size limit and the sample inputs
    (constants.ts). */
module Constants {
  import opened Wrappers
  import opened Types

  /** The registry entry declared for each listed format. */
  function Entry(f: FormatType): (e: ConversionOption)
    requires f != DocxText
    ensures e.value == f
  {
    match f
    case Json => ConversionOption(Json, "JSON", Data, "json", "application/json")
    case Csv => ConversionOption(Csv, "CSV", Data, "csv", "text/csv")
    case Xml => ConversionOption(Xml, "XML", Data, "xml", "application/xml")
    case Yaml => ConversionOption(Yaml, "YAML", Data, "yaml", "text/yaml")
    case Sql => ConversionOption(Sql, "SQL", Data, "sql", "application/sql")
    case Markdown => ConversionOption(Markdown, "Markdown", Document, "md", "text/markdown")
    case Html => ConversionOption(Html, "HTML", Document, "html", "text/html")
    case Text => ConversionOption(Text, "Plain Text", Document, "txt", "text/plain")
    case Latex => ConversionOption(Latex, "LaTeX", Document, "tex", "application/x-tex")
    case Python => ConversionOption(Python, "Python", Code, "py", "text/x-python")
    case JavaScript => ConversionOption(JavaScript, "JavaScript", Code, "js", "text/javascript")
    case TypeScript => ConversionOption(TypeScript, "TypeScript", Code, "ts", "text/typescript")
  }

  /** The data formats, listed first in `SUPPORTED_FORMATS`. */
  const DataFormats: seq<ConversionOption> :=
    [Entry(Json), Entry(Csv), Entry(Xml), Entry(Yaml), Entry(Sql)]

  /** The document formats, listed second. */
  const DocumentFormats: seq<ConversionOption> :=
    [Entry(Markdown), Entry(Html), Entry(Text), Entry(Latex)]

  /** The code formats, listed last. */
  const CodeFormats: seq<ConversionOption> :=
    [Entry(Python), Entry(JavaScript), Entry(TypeScript)]

  /** `SUPPORTED_FORMATS`, in declaration order: the order the selectors
      list the formats in. */
  const SupportedFormats: seq<ConversionOption> := DataFormats + DocumentFormats + CodeFormats

  /** `MAX_INPUT_CHARS`: the longest input the application sends. */
  const MaxInputChars: nat := 100000

  /** `SAMPLE_DATA`: the example input offered for three source formats. */
  const SampleData: map<FormatType, string> := map[
    Json := "[\n  { \"id\": 1, \"name\": \"Alice\", \"role\": \"Engineer\" },\n  { \"id\": 2, \"name\": \"Bob\", \"role\": \"Designer\" }\n]",
    Markdown := "# Project Title\n\n## Introduction\nThis is a sample markdown file.\n\n- Item 1\n- Item 2",
    Csv := "id,name,role\n1,Alice,Engineer\n2,Bob,Designer"
  ]

  /** `entries.find(f => f.value === v)`: the first entry with value `v`. */
  function FindIn(entries: seq<ConversionOption>, v: FormatType): (r: Option<ConversionOption>)
    ensures r.Some? ==> r.value in entries && r.value.value == v
    ensures r.None? <==> forall i :: 0 <= i < |entries| ==> entries[i].value != v
  {
    if |entries| == 0 then None
    else if entries[0].value == v then Some(entries[0])
    else FindIn(entries[1..], v)
  }

  /** Registry lookup by format value. */
  function Find(v: FormatType): Option<ConversionOption> {
    FindIn(SupportedFormats, v)
  }

  /** `SUPPORTED_FORMATS.filter(f => f.category === c)`, order kept. */
  function FilterIn(entries: seq<ConversionOption>, c: Category): (r: seq<ConversionOption>)
    ensures |r| <= |entries|
  {
    if |entries| == 0 then []
    else (if entries[0].category == c then [entries[0]] else []) + FilterIn(entries[1..], c)
  }

  /** `filter` keeps exactly the entries of the group: everything it
      returns is an entry of that group, and every such entry is returned. */
  lemma {:induction false} FilterInMembers(entries: seq<ConversionOption>, c: Category)
    ensures forall e :: e in FilterIn(entries, c) ==> e in entries && e.category == c
    ensures forall i :: 0 <= i < |entries| && entries[i].category == c ==> entries[i] in FilterIn(entries, c)
    decreases |entries|
  {
    if |entries| > 0 {
      var rest := entries[1..];
      FilterInMembers(rest, c);
      forall i | 1 <= i < |entries|
        ensures entries[i] == rest[i - 1]
      {
      }
    }
  }

  /** The entries a selector lists under one group heading. */
  function Filter(c: Category): seq<ConversionOption> {
    FilterIn(SupportedFormats, c)
  }

  /** The registry has twelve entries, JSON first and CSV second, and
      Markdown is the document format saved as `.md`, `text/markdown`. */
  lemma {:induction false} RegistryLayout()
    ensures |SupportedFormats| == 12
    ensures SupportedFormats[0].value == Json && SupportedFormats[1].value == Csv
    ensures SupportedFormats[5] == ConversionOption(Markdown, "Markdown", Document, "md", "text/markdown")
  {
  }

  /** No two registry entries share a format value. */
  lemma {:induction false} RegistryValuesDistinct()
    ensures forall i, j :: 0 <= i < j < |SupportedFormats| ==>
      SupportedFormats[i].value != SupportedFormats[j].value
  {
  }

  /** No two registry entries share a file extension. */
  lemma {:induction false} RegistryExtensionsDistinct()
    ensures forall i, j :: 0 <= i < j < |SupportedFormats| ==>
      SupportedFormats[i].extension != SupportedFormats[j].extension
  {
  }

  /** Looking up any entry's value yields that entry and no other. */
  lemma {:induction false} FindEntry(i: nat)
    requires i < |SupportedFormats|
    ensures Find(SupportedFormats[i].value) == Some(SupportedFormats[i])
  {
    var r := Find(SupportedFormats[i].value);
    RegistryValuesDistinct();
    var k :| 0 <= k < |SupportedFormats| && SupportedFormats[k] == r.value;
    assert SupportedFormats[k].value == SupportedFormats[i].value;
  }

  /** `DOCX_TEXT` is a format type with no registry entry. */
  lemma {:induction false} DocxTextNotListed()
    ensures Find(DocxText) == None
  {
    assert forall e :: e in SupportedFormats ==> e.value != DocxText;
    forall i | 0 <= i < |SupportedFormats|
      ensures SupportedFormats[i].value != DocxText
    {
      assert SupportedFormats[i] in SupportedFormats;
    }
  }

  /** Filtering a concatenation filters each part. */
  lemma {:induction false} FilterAppend(a: seq<ConversionOption>, b: seq<ConversionOption>, c: Category)
    ensures FilterIn(a + b, c) == FilterIn(a, c) + FilterIn(b, c)
    decreases |a|
  {
    if |a| > 0 {
      assert (a + b)[1..] == a[1..] + b;
      FilterAppend(a[1..], b, c);
    } else {
      assert a + b == b;
    }
  }

  /** Filtering the registry filters each of its three groups. */
  lemma {:induction false} FilterRegistry(c: Category)
    ensures Filter(c) == FilterIn(DataFormats, c) + FilterIn(DocumentFormats, c) + FilterIn(CodeFormats, c)
  {
    FilterAppend(DataFormats + DocumentFormats, CodeFormats, c);
    FilterAppend(DataFormats, DocumentFormats, c);
  }

  /** Each group filter yields exactly its own group of the registry. */
  lemma {:induction false} FilterGroup(c: Category)
    ensures Filter(c) == match c
      case Data => DataFormats
      case Document => DocumentFormats
      case Code => CodeFormats
  {
    FilterRegistry(c);
    match c
    case Data =>
      assert FilterIn(DataFormats, c) == DataFormats;
      assert FilterIn(DocumentFormats, c) == [];
      assert FilterIn(CodeFormats, c) == [];
    case Document =>
      assert FilterIn(DataFormats, c) == [];
      assert FilterIn(DocumentFormats, c) == DocumentFormats;
      assert FilterIn(CodeFormats, c) == [];
    case Code =>
      assert FilterIn(DataFormats, c) == [];
      assert FilterIn(DocumentFormats, c) == [];
      assert FilterIn(CodeFormats, c) == CodeFormats;
  }

  /** The three group filters split the registry in order: the 5 data,
      then the 4 document, then the 3 code formats. */
  lemma {:induction false} CategoriesPartition()
    ensures |Filter(Data)| == 5 && |Filter(Document)| == 4 && |Filter(Code)| == 3
    ensures Filter(Data) + Filter(Document) + Filter(Code) == SupportedFormats
  {
    FilterGroup(Data);
    FilterGroup(Document);
    FilterGroup(Code);
  }

  /** The registry as the code runs once types are erased: the entries for
      formats `types.ts` does not declare carry `undefined`, so no two of
      them can be told apart by value. */
  lemma {:induction false} UndeclaredValuesCollide()
    ensures SupportedFormats[4].value.RuntimeValue() == None
    ensures SupportedFormats[9].value.RuntimeValue() == None
    ensures SupportedFormats[4] != SupportedFormats[9]
    ensures RuntimeFindIn(SupportedFormats, "Python") == None
  {
  }

  /** `entries.find(f => f.value === v)` with each entry's value as the code
      evaluates it: an `undefined` value equals no string. */
  function RuntimeFindIn(entries: seq<ConversionOption>, v: string): (r: Option<ConversionOption>)
    ensures r.Some? ==> r.value in entries && r.value.value.RuntimeValue() == Some(v)
    ensures r.None? <==> forall i :: 0 <= i < |entries| ==> entries[i].value.RuntimeValue() != Some(v)
  {
    if |entries| == 0 then None
    else if entries[0].value.RuntimeValue() == Some(v) then Some(entries[0])
    else RuntimeFindIn(entries[1..], v)
  }

  /** Sample inputs exist for JSON, Markdown and CSV only; each is
      non-empty and no two are equal. */
  lemma {:induction false} SampleDataShape()
    ensures SampleData.Keys == {Json, Markdown, Csv}
    ensures forall f :: f in SampleData ==> SampleData[f] != ""
    ensures SampleData[Json] != SampleData[Markdown] && SampleData[Json] != SampleData[Csv]
      && SampleData[Markdown] != SampleData[Csv]
  {
  }
}
