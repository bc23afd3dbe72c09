/** The application component: which formats are chosen, the input and
    output panes, the busy flag and the error banner, and the three things
    that change them: choosing a source format, swapping, converting. */
module App {
  import opened Wrappers
  import opened JsString
  import opened Types
  import opened Constants
  import opened Backend
  import GeminiService

  /** The banner for input over the size limit (`toLocaleString` of the
      limit in an English locale). */
  const TooLargeMessage: string := "Input too large. Limit is 100,000 characters."
  /** The banner for any failure of the service call. */
  const UnexpectedMessage: string := "An unexpected error occurred. Please check your connection."
  /** How the model reports that it cannot convert the input. */
  const ErrorSentinel: string := "ERROR:"

  /** The component's state at one moment. */
  datatype View = View(
    fromFormat: ConversionOption,
    toFormat: ConversionOption,
    inputContent: string,
    outputContent: string,
    isConverting: bool,
    error: Option<string>)

  /** The state on first render: JSON to CSV with the JSON sample as input. */
  function Initial(): (v: View)
    ensures v.fromFormat == SupportedFormats[0] && v.toFormat == SupportedFormats[1]
    ensures v.fromFormat.value == Json && v.toFormat.value == Csv
    ensures v.inputContent == SampleData[Json]
    ensures v.outputContent == [] && !v.isConverting && v.error == None
  {
    RegistryLayout();
    View(SupportedFormats[0], SupportedFormats[1], SampleData[Json], "", false, None)
  }

  /** The input is one of the sample texts. */
  predicate IsSample(s: string) {
    s in SampleData.Values
  }

  /** The input after the source format becomes `source`: the source's
      sample replaces an empty input or a sample input; anything the user
      typed stays, and so does everything when the source has no sample. */
  function InputAfterSourceChange(input: string, source: ConversionOption): (r: string)
    ensures r == input || IsSample(r)
    ensures source.value !in SampleData ==> r == input
  {
    if (input == [] || IsSample(input)) && source.value in SampleData then SampleData[source.value] else input
  }

  /** The effect that runs after a render in which the source format
      changed: sample refresh, output and error cleared. */
  function AfterSourceChange(v: View): (w: View)
    ensures w.outputContent == [] && w.error == None
    ensures w.fromFormat == v.fromFormat && w.toFormat == v.toFormat && w.isConverting == v.isConverting
    ensures w.inputContent == v.inputContent || IsSample(w.inputContent)
  {
    v.(inputContent := InputAfterSourceChange(v.inputContent, v.fromFormat), outputContent := [], error := None)
  }

  /** `handleSwap`'s four updates, all from the same render's values. */
  function Swapped(v: View): (w: View)
    ensures w.fromFormat == v.toFormat && w.toFormat == v.fromFormat
    ensures w.inputContent == v.outputContent && w.outputContent == v.inputContent
    ensures w.isConverting == v.isConverting && w.error == v.error
  {
    v.(fromFormat := v.toFormat, toFormat := v.fromFormat,
       inputContent := v.outputContent, outputContent := v.inputContent)
  }

  /** A swap as the user sees it: the swap's updates, then the source-format
      effect when the source format actually changed. */
  function SwapRendered(v: View): (w: View)
    ensures w.fromFormat == v.toFormat && w.toFormat == v.fromFormat
    ensures w.isConverting == v.isConverting
    ensures v.fromFormat == v.toFormat ==> w == Swapped(v)
    ensures v.fromFormat != v.toFormat ==> w.outputContent == [] && w.error == None
  {
    var w := Swapped(v);
    if w.fromFormat != v.fromFormat then AfterSourceChange(w) else w
  }

  /** The first, synchronous part of `handleConvert`: whether the service is
      called, and the state while it runs. */
  function ConvertStart(v: View): (r: (View, bool))
    ensures r.1 <==> !IsBlank(v.inputContent) && |v.inputContent| <= MaxInputChars
    ensures IsBlank(v.inputContent) ==> r.0 == v
    ensures !IsBlank(v.inputContent) && |v.inputContent| > MaxInputChars ==> r.0 == v.(error := Some(TooLargeMessage))
    ensures r.1 ==> r.0 == v.(isConverting := true, error := None)
  {
    if Trim(v.inputContent) == [] then (v, false)
    else if |v.inputContent| > MaxInputChars then (v.(error := Some(TooLargeMessage)), false)
    else (v.(isConverting := true, error := None), true)
  }

  /** The second part, once the service has settled: a result reporting the
      model's refusal goes to the banner, any other result to the output
      pane, a thrown error becomes the generic banner; the busy flag drops. */
  function ConvertFinish(v: View, result: Result<string, string>): (w: View)
    ensures !w.isConverting
    ensures w.fromFormat == v.fromFormat && w.toFormat == v.toFormat && w.inputContent == v.inputContent
    ensures result.Success? && !StartsWith(result.value, ErrorSentinel) ==>
      w.outputContent == result.value && w.error == v.error
    ensures result.Success? && StartsWith(result.value, ErrorSentinel) ==>
      w.outputContent == v.outputContent && w.error == Some(result.value)
    ensures result.Failure? ==> w.outputContent == v.outputContent && w.error == Some(UnexpectedMessage)
  {
    match result
    case Success(text) =>
      if StartsWith(text, ErrorSentinel) then v.(error := Some(text), isConverting := false)
      else v.(outputContent := text, isConverting := false)
    case Failure(_) => v.(error := Some(UnexpectedMessage), isConverting := false)
  }

  /** `handleConvert` given what the one service call gave. */
  function Converted(v: View, outcome: GenerateOutcome): (w: View)
    ensures w.fromFormat == v.fromFormat && w.toFormat == v.toFormat && w.inputContent == v.inputContent
    ensures ConvertStart(v).1 ==> !w.isConverting
    ensures !ConvertStart(v).1 ==> w == ConvertStart(v).0
  {
    var (w, dispatched) := ConvertStart(v);
    if dispatched then ConvertFinish(w, GeminiService.Converted(v.inputContent, outcome)) else w
  }

  /** The component: one field per piece of state. */
  class App {
    var fromFormat: ConversionOption
    var toFormat: ConversionOption
    var inputContent: string
    var outputContent: string
    var isConverting: bool
    var error: Option<string>

    /** The current state as a value. */
    function Snapshot(): View
      reads this
    {
      View(fromFormat, toFormat, inputContent, outputContent, isConverting, error)
    }

    /** The initial `useState` values. */
    constructor()
      ensures Snapshot() == Initial()
    {
      fromFormat := SupportedFormats[0];
      toFormat := SupportedFormats[1];
      inputContent := SampleData[Json];
      outputContent := "";
      isConverting := false;
      error := None;
    }

    /** The effect on `fromFormat`. */
    method SourceChanged()
      modifies this
      ensures Snapshot() == AfterSourceChange(old(Snapshot()))
    {
      var previousSample := inputContent in SampleData.Values;
      if (inputContent == [] || previousSample) && fromFormat.value in SampleData {
        inputContent := SampleData[fromFormat.value];
      }
      outputContent := "";
      error := None;
    }

    /** Choosing a source format; the effect runs when it differs from the
      current one. */
    method SelectSource(option: ConversionOption)
      modifies this
      ensures option != old(fromFormat) ==> Snapshot() == AfterSourceChange(old(Snapshot()).(fromFormat := option))
      ensures option == old(fromFormat) ==> Snapshot() == old(Snapshot())
    {
      if option != fromFormat {
        fromFormat := option;
        SourceChanged();
      }
    }

    /** Choosing a target format. */
    method SelectTarget(option: ConversionOption)
      modifies this
      ensures Snapshot() == old(Snapshot()).(toFormat := option)
    {
      toFormat := option;
    }

    /** Typing into the input pane. */
    method EditInput(text: string)
      modifies this
      ensures Snapshot() == old(Snapshot()).(inputContent := text)
    {
      inputContent := text;
    }

    /** `handleSwap`, followed by the effect it triggers. */
    method HandleSwap()
      modifies this
      ensures Snapshot() == SwapRendered(old(Snapshot()))
    {
      var temp := fromFormat;
      var input := inputContent;
      fromFormat := toFormat;
      toFormat := temp;
      inputContent := outputContent;
      outputContent := input;
      if fromFormat != temp {
        SourceChanged();
      }
    }

    /** The checks and updates before the service call; `dispatched` tells
      whether the call is made. */
    method BeginConvert() returns (dispatched: bool)
      modifies this
      ensures (Snapshot(), dispatched) == ConvertStart(old(Snapshot()))
    {
      if Trim(inputContent) == [] {
        return false;
      }
      if |inputContent| > MaxInputChars {
        error := Some(TooLargeMessage);
        return false;
      }
      isConverting := true;
      error := None;
      dispatched := true;
    }

    /** The updates once the service call has settled. */
    method FinishConvert(result: Result<string, string>)
      modifies this
      ensures Snapshot() == ConvertFinish(old(Snapshot()), result)
    {
      match result {
        case Success(text) =>
          if StartsWith(text, ErrorSentinel) {
            error := Some(text);
          } else {
            outputContent := text;
          }
        case Failure(_) =>
          error := Some(UnexpectedMessage);
      }
      isConverting := false;
    }

    /** `handleConvert`, the awaited call included. */
    method HandleConvert(generate: GenerateRequest -> GenerateOutcome)
      modifies this
      ensures Snapshot() == Converted(old(Snapshot()),
        generate(GeminiService.RequestFor(old(inputContent), old(fromFormat).value, old(toFormat).value)))
    {
      var dispatched := BeginConvert();
      if dispatched {
        var result := GeminiService.ConvertContent(inputContent, fromFormat.value, toFormat.value, generate);
        FinishConvert(result);
      }
    }
  }

  /** The effect also runs once after the first render; on the initial
      state it changes nothing, since the input is already JSON's sample. */
  lemma {:induction false} MountEffectNoOp()
    ensures AfterSourceChange(Initial()) == Initial()
  {
    assert IsSample(Initial().inputContent);
  }

  /** Swapping twice, before any effect, restores the state. */
  lemma {:induction false} SwapTwice(v: View)
    ensures Swapped(Swapped(v)) == v
  {
  }

  /** A swap between two different formats always ends with an empty output
      pane and no banner: the effect it triggers discards the old input
      that the swap had just moved there. */
  lemma {:induction false} SwapClearsOutput(v: View)
    requires v.fromFormat != v.toFormat
    ensures var w := SwapRendered(v);
      && w.fromFormat == v.toFormat && w.toFormat == v.fromFormat
      && w.outputContent == [] && w.error == None
      && w.inputContent == InputAfterSourceChange(v.outputContent, v.toFormat)
  {
  }

  /** Swapping to a format with a sample after a conversion whose output the
      user did not edit brings the sample in instead of the output only when
      the output was empty or a sample; a real output moves to the input. */
  lemma {:induction false} SwapKeepsRealOutput(v: View)
    requires v.fromFormat != v.toFormat
    requires v.outputContent != [] && !IsSample(v.outputContent)
    ensures SwapRendered(v).inputContent == v.outputContent
  {
  }

  /** Text the user typed survives any change of source format. */
  lemma {:induction false} TypedInputKept(input: string, source: ConversionOption)
    requires input != [] && !IsSample(input)
    ensures InputAfterSourceChange(input, source) == input
  {
  }

  /** An empty or sample input is replaced by the new source's sample when
      it has one: the sample follows the source. */
  lemma {:induction false} SampleFollowsSource(input: string, source: ConversionOption)
    requires input == [] || IsSample(input)
    requires source.value in SampleData
    ensures InputAfterSourceChange(input, source) == SampleData[source.value]
    ensures IsSample(InputAfterSourceChange(input, source))
  {
  }

  /** Blank input is not sent and changes nothing. */
  lemma {:induction false} BlankInputIgnored(v: View, outcome: GenerateOutcome)
    requires IsBlank(v.inputContent)
    ensures Converted(v, outcome) == v
  {
  }

  /** Input over the limit is not sent: the banner says so and nothing else
      changes. The limit itself is allowed. */
  lemma {:induction false} OversizedInputRefused(v: View, outcome: GenerateOutcome)
    requires !IsBlank(v.inputContent) && |v.inputContent| > MaxInputChars
    ensures Converted(v, outcome) == v.(error := Some(TooLargeMessage))
  {
  }

  /** After a conversion that was sent the busy flag is down, the formats
      and the input are as before, and either the output pane holds the
      trimmed result and the banner is clear, or the output is untouched and
      the banner shows the model's refusal, the service's failure message
      having been replaced by the generic one. */
  lemma {:induction false} SentConversionSettles(v: View, outcome: GenerateOutcome)
    requires !IsBlank(v.inputContent) && |v.inputContent| <= MaxInputChars
    ensures var w := Converted(v, outcome);
      && !w.isConverting
      && w.fromFormat == v.fromFormat && w.toFormat == v.toFormat && w.inputContent == v.inputContent
      && ((w.error == None && IsTrimmed(w.outputContent) && !StartsWith(w.outputContent, ErrorSentinel))
          || (w.outputContent == v.outputContent && w.error.Some?
              && (w.error.value == UnexpectedMessage || StartsWith(w.error.value, ErrorSentinel))))
  {
    var (s, d) := ConvertStart(v);
    assert d && s == v.(isConverting := true, error := None);
  }
}
