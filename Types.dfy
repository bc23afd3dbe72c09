/** The shared vocabulary of the converter: formats, registry entries and
    the provider configuration (types.ts). */
module Types {
  import opened Wrappers

  /** Every format the application names. `types.ts` declares the first
      nine; the registry in `constants.ts` also names `SQL`, `PYTHON`,
      `JAVASCRIPT` and `TYPESCRIPT`, so the enumeration here is the union
      of the two files. */
  datatype FormatType =
    | Markdown | Html | Text | Json | Csv | Xml | Yaml | Latex | DocxText
    | Sql | Python | JavaScript | TypeScript
  {
    /** The enum member's string value, the text the prompt embeds. The
        last four are not declared in `types.ts`; their strings are the
        registry labels. */
    function Value(): string {
      match this
      case Markdown => "Markdown"
      case Html => "HTML"
      case Text => "Plain Text"
      case Json => "JSON"
      case Csv => "CSV"
      case Xml => "XML"
      case Yaml => "YAML"
      case Latex => "LaTeX"
      case DocxText => "Docx Content"
      case Sql => "SQL"
      case Python => "Python"
      case JavaScript => "JavaScript"
      case TypeScript => "TypeScript"
    }

    /** Whether `types.ts` declares this member. */
    predicate IsDeclared() {
      !(Sql? || Python? || JavaScript? || TypeScript?)
    }

    /** What `FormatType.X` evaluates to once types are erased: the declared
        string, or `undefined` (`None`) for a member `types.ts` lacks. */
    function RuntimeValue(): (v: Option<string>)
      ensures v.Some? <==> IsDeclared()
      ensures v.Some? ==> v.value == Value()
    {
      if IsDeclared() then Some(Value()) else None
    }
  }

  /** Reverse lookup from a string value to the enum member that has it. */
  function ParseFormatType(s: string): (f: Option<FormatType>)
    ensures f.Some? ==> f.value.Value() == s
  {
    match s
    case "Markdown" => Some(Markdown)
    case "HTML" => Some(Html)
    case "Plain Text" => Some(Text)
    case "JSON" => Some(Json)
    case "CSV" => Some(Csv)
    case "XML" => Some(Xml)
    case "YAML" => Some(Yaml)
    case "LaTeX" => Some(Latex)
    case "Docx Content" => Some(DocxText)
    case "SQL" => Some(Sql)
    case "Python" => Some(Python)
    case "JavaScript" => Some(JavaScript)
    case "TypeScript" => Some(TypeScript)
    case _ => None
  }

  /** Every member's string value leads back to that member. */
  lemma {:induction false} ParseValue(f: FormatType)
    ensures ParseFormatType(f.Value()) == Some(f)
  {
    match f
    case Markdown =>
    case Html =>
    case Text =>
    case Json =>
    case Csv =>
    case Xml =>
    case Yaml =>
    case Latex =>
    case DocxText =>
    case Sql =>
    case Python =>
    case JavaScript =>
    case TypeScript =>
  }

  /** The string values are pairwise distinct, so a value names one member. */
  lemma {:induction false} ValuesDistinct(f: FormatType, g: FormatType)
    requires f != g
    ensures f.Value() != g.Value()
  {
    ParseValue(f);
    ParseValue(g);
  }

  /** The group a registry entry is listed under. `types.ts` declares only
      `Document` and `Data`; the registry in `constants.ts` also lists code
      formats under `Code`, so the groups here are those the registry uses. */
  datatype Category = Data | Document | Code

  /** One registry entry: a format, its display label, its group, and the
      file extension and MIME type used when the output is downloaded. */
  datatype ConversionOption = ConversionOption(
    value: FormatType,
    displayLabel: string,
    category: Category,
    extension: string,
    mimeType: string)

  /** The two backends a configuration can select. */
  datatype LLMProvider = Gemini | OpenAI

  /** Run-time settings passed into every conversion. */
  datatype LLMConfig = LLMConfig(
    provider: LLMProvider,
    apiKey: string,
    baseUrl: string,
    model: string)
}
