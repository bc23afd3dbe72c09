/** The instruction and the prompt both services send to the model. */
module Prompt {
  import opened Types

  /** `SYSTEM_INSTRUCTION`, the same text in both service files. */
  const SystemInstruction: string :=
    "\nYou are a highly precise, deterministic file conversion engine. \n"
    + "Your goal is to convert input data from one format to another strictly.\n"
    + "Do not add conversational filler, explanations, or markdown code blocks (unless the target format IS markdown).\n"
    + "Return ONLY the raw converted content.\n"
    + "If the input is malformed but repairable, repair it and convert.\n"
    + "If the input is completely unrecognizable or incompatible with the target format, return \"ERROR: [Reason]\".\n"

  /** The text before the source format name. */
  function Head(indent: string): string {
    "\n" + indent + "Source Format: "
  }

  /** The text between the source and the target format names. */
  function BeforeTarget(indent: string): string {
    "\n" + indent + "Target Format: "
  }

  /** The text between the target format name and the content. */
  function BeforeContent(indent: string): string {
    "\n" + indent + "\n" + indent + "Input Content:\n" + indent
  }

  /** The text after the content. */
  function Tail(indent: string): string {
    "\n" + indent + "\n" + indent + "Convert the input content to the target format.\n" + indent
  }

  /** The prompt template literal, whose continuation lines are indented
      by `indent` as in the service file that writes it. */
  function Template(indent: string, source: string, target: string, content: string): (p: string)
    ensures |p| == |Head(indent)| + |source| + |BeforeTarget(indent)| + |target|
      + |BeforeContent(indent)| + |content| + |Tail(indent)|
  {
    Head(indent) + source + BeforeTarget(indent) + target + BeforeContent(indent) + content + Tail(indent)
  }

  /** The prompt holds the source format name, then the target format name,
      then the content, each verbatim at a position fixed by the lengths of
      what precedes it, and nothing after the content but the fixed tail. */
  lemma {:induction false} TemplatePlacement(indent: string, source: string, target: string, content: string)
    ensures var p := Template(indent, source, target, content);
      var s0 := |Head(indent)|;
      var t0 := s0 + |source| + |BeforeTarget(indent)|;
      var c0 := t0 + |target| + |BeforeContent(indent)|;
      && |p| == c0 + |content| + |Tail(indent)|
      && p[s0..s0 + |source|] == source
      && p[t0..t0 + |target|] == target
      && p[c0..c0 + |content|] == content
      && p[c0 + |content|..] == Tail(indent)
  {
    var p := Template(indent, source, target, content);
    var a := Head(indent) + source;
    var b := a + BeforeTarget(indent) + target;
    var c := b + BeforeContent(indent) + content;
    Placed(Head(indent), source, BeforeTarget(indent) + target + BeforeContent(indent) + content + Tail(indent));
    Placed(a + BeforeTarget(indent), target, BeforeContent(indent) + content + Tail(indent));
    Placed(b + BeforeContent(indent), content, Tail(indent));
  }

  /** The middle part of a three-part concatenation sits right after the first. */
  lemma {:induction false} Placed(x: string, m: string, y: string)
    ensures (x + m + y)[|x|..|x| + |m|] == m
    ensures (x + m + y)[|x| + |m|..] == y
  {
  }

  /** The prompt for one conversion, with the continuation-line indent of
      the service file that writes it. */
  function BuildPrompt(indent: string, content: string, from: FormatType, to: FormatType): (p: string)
    ensures |p| == |Head(indent)| + |from.Value()| + |BeforeTarget(indent)| + |to.Value()|
      + |BeforeContent(indent)| + |content| + |Tail(indent)|
    ensures var s0 := |Head(indent)|;
      var t0 := s0 + |from.Value()| + |BeforeTarget(indent)|;
      && p[..s0] == Head(indent)
      && p[s0..s0 + |from.Value()|] == from.Value()
      && p[t0..t0 + |to.Value()|] == to.Value()
      && p[|p| - |Tail(indent)| - |content|..|p| - |Tail(indent)|] == content
      && p[|p| - |Tail(indent)|..] == Tail(indent)
  {
    TemplatePlacement(indent, from.Value(), to.Value(), content);
    Template(indent, from.Value(), to.Value(), content)
  }
}
