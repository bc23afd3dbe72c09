/** The clean-up both services apply to the model's raw answer: drop a
    Markdown code fence around it and surrounding whitespace. */
module Sanitizer {
  import opened Wrappers
  import opened JsString

  /** The fence marker. */
  const Fence: string := "```"

  /** The message of the TypeError raised by calling `trim()` on
      `undefined` (V8's wording). */
  const TrimOfUndefinedMessage: string := "Cannot read properties of undefined (reading 'trim')"

  /** What the clean-up yields for `text`, on its lines. Text that does not
      start with the fence (leading whitespace counts) is only trimmed.
      Fenced text loses its first line, and its last one when that trims to
      the fence; the remaining lines are joined back and trimmed. When no
      line is left after the first, reading the last one throws. */
  function Sanitized(text: string): (r: Result<string, string>)
    ensures !StartsWith(text, Fence) ==> r == Success(Trim(text))
    ensures StartsWith(text, Fence) && '\n' !in text ==> r == Failure(TrimOfUndefinedMessage)
    ensures !(StartsWith(text, Fence) && '\n' !in text) ==> r.Success? && IsTrimmed(r.value)
  {
    LinesAfterFirstEmpty(text);
    if !StartsWith(text, Fence) then Success(Trim(text))
    else
      var lines := Split(text, '\n')[1..];
      if |lines| == 0 then Failure(TrimOfUndefinedMessage)
      else
        var kept := if Trim(lines[|lines| - 1]) == Fence then lines[..|lines| - 1] else lines;
        Success(Trim(Join(kept, '\n')))
  }

  /** The clean-up as the services run it on the array of lines: `shift()`
      the first, `pop()` the last when it trims to the fence, join, trim. */
  method Sanitize(raw: string) returns (r: Result<string, string>)
    ensures r == Sanitized(raw)
  {
    var text := raw;
    if StartsWith(text, Fence) {
      var lines := Split(text, '\n');
      lines := lines[1..];
      if |lines| == 0 {
        // `lines[lines.length - 1]` is undefined and `.trim()` throws
        return Failure(TrimOfUndefinedMessage);
      }
      if Trim(lines[|lines| - 1]) == Fence {
        lines := lines[..|lines| - 1];
      }
      text := Join(lines, '\n');
    }
    r := Success(Trim(text));
  }

  /** No line follows the first exactly when there is no line break. */
  lemma {:induction false} LinesAfterFirstEmpty(text: string)
    ensures |Split(text, '\n')[1..]| == 0 <==> '\n' !in text
  {
    IndexOfFound(text, '\n');
    if IndexOf(text, '\n') >= 0 {
      SplitUnfold(text, '\n');
    }
  }

  /** Wrapping content in a fence with a language tag, as models tend to,
      and cleaning it up gives the content back, when it has no
      surrounding whitespace of its own. */
  lemma {:induction false} FenceRoundTrip(tag: string, content: string)
    requires '\n' !in tag
    requires IsTrimmed(content)
    ensures Sanitized(Fence + tag + "\n" + content + "\n" + Fence) == Success(content)
  {
    var text := Fence + tag + "\n" + content + "\n" + Fence;
    FencedLines(tag, content);
    var lines := Split(text, '\n')[1..];
    assert lines[|lines| - 1] == Fence;
    assert lines[..|lines| - 1] == Split(content, '\n');
    TrimOfTrimmed(Fence);
    JoinSplit(content, '\n');
    TrimOfTrimmed(content);
  }

  /** A fenced answer whose last line is not a closing fence loses only its
      opening line: the rest is kept whole and trimmed. */
  lemma {:induction false} UnclosedFenceKept(tag: string, content: string)
    requires '\n' !in tag
    requires var lines := Split(content, '\n'); Trim(lines[|lines| - 1]) != Fence
    ensures Sanitized(Fence + tag + "\n" + content) == Success(Trim(content))
  {
    var text := Fence + tag + "\n" + content;
    OpenedLines(tag, content);
    var lines := Split(content, '\n');
    calc {
      Sanitized(text);
      == { assert Split(text, '\n')[1..] == lines && |lines| >= 1;
           assert Trim(lines[|lines| - 1]) != Fence; }
      Success(Trim(Join(lines, '\n')));
      == { JoinSplit(content, '\n'); }
      Success(Trim(content));
    }
  }

  /** The lines of a fenced text after the opening one are the lines of
      what follows the first line break. */
  lemma {:induction false} OpenedLines(tag: string, content: string)
    requires '\n' !in tag
    ensures var text := Fence + tag + "\n" + content;
      && StartsWith(text, Fence)
      && Split(text, '\n')[1..] == Split(content, '\n')
  {
    var opening := Fence + tag;
    var text := opening + "\n" + content;
    assert Fence + tag + "\n" + content == text;
    assert text[..|Fence|] == Fence;
    SplitConcat(opening, content, '\n');
    SplitWithout(opening, '\n');
  }

  /** The lines of a fenced text after the opening one are the lines of the
      content followed by the closing fence. */
  lemma {:induction false} FencedLines(tag: string, content: string)
    requires '\n' !in tag
    ensures var text := Fence + tag + "\n" + content + "\n" + Fence;
      && StartsWith(text, Fence)
      && Split(text, '\n')[1..] == Split(content, '\n') + [Fence]
  {
    var opening := Fence + tag;
    var body := content + "\n" + Fence;
    var text := opening + "\n" + body;
    assert Fence + tag + "\n" + content + "\n" + Fence == text;
    assert text[..|Fence|] == Fence;
    SplitConcat(opening, body, '\n');
    SplitConcat(content, Fence, '\n');
    SplitWithout(opening, '\n');
    SplitWithout(Fence, '\n');
  }

  /** A bare fence, or any fenced text on one line, throws. */
  lemma {:induction false} OneLineFenceThrows(tag: string)
    requires '\n' !in tag
    ensures Sanitized(Fence + tag) == Failure(TrimOfUndefinedMessage)
  {
    assert (Fence + tag)[..|Fence|] == Fence;
  }

  /** The fence test looks at the untrimmed text: a fence after leading
      whitespace is not recognised and stays in the result. */
  lemma {:induction false} IndentedFenceKept(indent: string, rest: string)
    requires |indent| >= 1 && IsBlank(indent)
    requires rest == [] || !IsWhitespace(rest[|rest| - 1])
    ensures Sanitized(indent + Fence + rest) == Success(Fence + rest)
  {
    var kept := Fence + rest;
    var text := indent + kept;
    assert indent + Fence + rest == text;
    assert text[0] == indent[0];
    assert !StartsWith(text, Fence);
    assert kept[0] == '`';
    assert kept[|kept| - 1] == if rest == [] then '`' else rest[|rest| - 1];
    TrimStartBlankPrefix(indent, kept);
    calc {
      Trim(text);
      TrimEnd(TrimStart(text));
      TrimEnd(kept);
      kept;
    }
  }
}
