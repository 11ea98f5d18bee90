/**
  The VM translator (projects/7/VMTranslator.js): each line of a stack-VM
  program is split into words and lowered, by a fixed template, to Hack
  assembly lines joined with newlines.  Comparisons take fresh labels from
  the module-level counter `LABEL_ID`, which starts at -1 and is
  incremented before each use; here it is the field of the class
  `Translator`, which also holds the input file's name that static
  variables are named after.
*/
module Vm {
  import opened Js

  /** The values `commandtype` returns. */
  datatype CommandKind = CPush | CPop | CLabel | CGoto | CIf | CArithmetic | CFunction | CReturn | CCall

  /** `tokens[i]`, undefined past the end. */
  function Arg(tokens: seq<string>, i: nat): JsValue<string>
  {
    if i < |tokens| then Defined(tokens[i]) else Undefined
  }

  /** commandtype: the switch on the first word.  `not` has no case. */
  function CommandType(tokens: seq<string>): JsValue<CommandKind>
  {
    if tokens == [] then Undefined
    else
      match tokens[0]
      case "push" => Defined(CPush)
      case "pop" => Defined(CPop)
      case "label" => Defined(CLabel)
      case "if-goto" => Defined(CIf)
      case "goto" => Defined(CGoto)
      case "return" => Defined(CReturn)
      case "call" => Defined(CCall)
      case "function" => Defined(CFunction)
      case "add" | "sub" | "neg" | "and" | "or" | "gt" | "lt" | "eq" => Defined(CArithmetic)
      case _ => Undefined
  }

  /** cmdarr: the template's lines joined with newlines. */
  function Emit(lines: JsValue<seq<string>>): JsValue<string>
  {
    match lines
    case Defined(ls) => Defined(Join(ls, "\n"))
    case Undefined => Undefined
    case Null => Null
  }

  /** SEGMENT_CODES. */
  function SegmentCode(segment: string): JsValue<string>
  {
    match segment
    case "local" => Defined("LCL")
    case "argument" => Defined("ARG")
    case "this" => Defined("THIS")
    case "that" => Defined("THAT")
    case _ => Undefined
  }

  predicate IsSegmentBase(segment: string)
  {
    segment == "local" || segment == "argument" || segment == "this" || segment == "that"
  }

  /** `index != 0 ? "@4" : "@3"`, the loose comparison with zero. */
  function PointerAddress(index: JsValue<string>): string
  {
    if LooseNotZero(index) then "@4" else "@3"
  }

  /** The assembler variable a static slot is kept in. */
  function StaticName(fileName: string, index: JsValue<string>): string
  {
    fileName + "." + Show(index)
  }

  // -------------------------------------------------------------- branch

  /** branch: `(name)`, `@name 0;JMP`, or a pop followed by `D;JNE`. */
  function BranchLines(tokenType: JsValue<string>, tokenName: JsValue<string>): JsValue<seq<string>>
  {
    match tokenType
    case Defined(t) =>
      (match t
       case "label" => Defined(["(" + Show(tokenName) + ")"])
       case "if-goto" => Defined(["@SP", "M=M-1", "A=M", "D=M", "@" + Show(tokenName), "D;JNE"])
       case "goto" => Defined(["@" + Show(tokenName), "0;JMP"])
       case _ => Undefined)
    case _ => Undefined
  }

  // ---------------------------------------------------------- push, pop

  /** pop: the address of the target slot goes to the variable `addr`
      first, then the top of the stack is written through it.  There is no
      `constant` case. */
  function PopLines(segment: JsValue<string>, index: JsValue<string>, fileName: string): JsValue<seq<string>>
  {
    var i := Show(index);
    match segment
    case Defined(s) =>
      if IsSegmentBase(s) then
        Defined(["@" + i, "D=A", "@" + Show(SegmentCode(s)), "D=D+M", "@addr", "M=D",
                 "@SP", "M=M-1", "A=M", "D=M", "@addr", "A=M", "M=D"])
      else
        (match s
         case "temp" =>
           Defined(["@13", "D=A", "@" + i, "D=D+A", "@addr", "M=D",
                    "@SP", "M=M-1", "A=M", "D=M", "@addr", "A=M", "M=D"])
         case "static" =>
           Defined(["@SP", "M=M-1", "A=M", "D=M", "@" + StaticName(fileName, index), "M=D"])
         case "pointer" =>
           Defined(["@SP", "M=M-1", "A=M", "D=M", PointerAddress(index), "M=D"])
         case _ => Undefined)
    case _ => Undefined
  }

  /** push: the value goes to D, then to the slot SP points at, and SP
      moves up. */
  function PushLines(segment: JsValue<string>, index: JsValue<string>, fileName: string): JsValue<seq<string>>
  {
    var i := Show(index);
    match segment
    case Defined(s) =>
      if IsSegmentBase(s) then
        Defined(["@" + i, "D=A", "@" + Show(SegmentCode(s)), "A=M+D", "D=M",
                 "@SP", "A=M", "M=D", "@SP", "M=M+1"])
      else
        (match s
         case "constant" => Defined(["@" + i, "D=A", "@SP", "A=M", "M=D", "@SP", "M=M+1"])
         case "temp" =>
           Defined(["@13", "D=A", "@" + i, "D=D+A", "A=D", "D=M",
                    "@SP", "A=M", "M=D", "@SP", "M=M+1"])
         case "static" =>
           Defined(["@" + StaticName(fileName, index), "D=M", "@SP", "A=M", "M=D", "@SP", "M=M+1"])
         case "pointer" =>
           Defined([PointerAddress(index), "D=M", "@SP", "A=M", "M=D", "@SP", "M=M+1"])
         case _ => Undefined)
    case _ => Undefined
  }

  // ------------------------------------------------------------ compute

  /** OP_CODES. */
  function OpCode(op: string): JsValue<string>
  {
    match op
    case "add" => Defined("+")
    case "sub" => Defined("-")
    case "neg" => Defined("-")
    case "and" => Defined("&")
    case "or" => Defined("|")
    case "not" => Defined("!")
    case _ => Undefined
  }

  /** JUMP_CODES. */
  function JumpCode(op: string): JsValue<string>
  {
    match op
    case "eq" => Defined("JEQ")
    case "gt" => Defined("JGT")
    case "lt" => Defined("JLT")
    case _ => Undefined
  }

  predicate IsBinary(op: string) { op == "add" || op == "sub" || op == "and" || op == "or" }

  predicate IsUnary(op: string) { op == "neg" || op == "not" }

  predicate IsComparison(op: string) { op == "eq" || op == "gt" || op == "lt" }

  /** `${LABEL_ID}`. */
  function IntToString(n: int): string
  {
    if n < 0 then "-" + NatToString(-n) else NatToString(n)
  }

  /** The comparison template with label number n. */
  function ComparisonLines(op: string, n: int): seq<string>
  {
    var id := IntToString(n);
    ["@SP", "M=M-1", "A=M", "D=M", "A=A-1", "M=M-D", "D=M",
     "@jump_true_" + id, "D;" + Show(JumpCode(op)),
     "@SP", "A=M", "A=A-1", "M=0", "@continue_" + id, "0;JMP",
     "(jump_true_" + id + ")", "@SP", "A=M", "A=A-1", "M=-1",
     "(continue_" + id + ")"]
  }

  /** compute's template for `op` when the counter holds `labelId` after the
      call: add/sub/and/or pop into the slot below, neg/not work in place,
      eq/gt/lt branch to set -1 or 0. */
  function ComputeLines(op: JsValue<string>, labelId: int): JsValue<seq<string>>
  {
    match op
    case Defined(o) =>
      if IsBinary(o) then Defined(["@SP", "M=M-1", "A=M", "D=M", "A=A-1", "M=M" + Show(OpCode(o)) + "D"])
      else if IsUnary(o) then Defined(["@SP", "M=M-1", "A=M", "M=" + Show(OpCode(o)) + "M", "@SP", "M=M+1"])
      else if IsComparison(o) then Defined(ComparisonLines(o, labelId))
      else Undefined
    case _ => Undefined
  }

  /** The counter after compute: one more for a comparison. */
  function NextLabelId(op: JsValue<string>, labelId: int): int
  {
    if op.Defined? && IsComparison(op.value) then labelId + 1 else labelId
  }

  // -------------------------------------------------------------- parse

  /** The words of a line: trimmed, then split at every single space. */
  function Words(line: string): (tokens: seq<string>)
    ensures |tokens| >= 1
  {
    Split(Trim(line), {' '})
  }

  /** parse with the counter at `labelId`: the translation, and the counter
      afterwards.  Lines whose first word has no command type give null. */
  function ParseResult(labelId: int, fileName: string, line: string): (JsValue<string>, int)
  {
    var tokens := Words(line);
    match CommandType(tokens)
    case Defined(CPush) => (Emit(PushLines(Arg(tokens, 1), Arg(tokens, 2), fileName)), labelId)
    case Defined(CPop) => (Emit(PopLines(Arg(tokens, 1), Arg(tokens, 2), fileName)), labelId)
    case Defined(CArithmetic) =>
      var next := NextLabelId(Arg(tokens, 0), labelId);
      (Emit(ComputeLines(Arg(tokens, 0), next)), next)
    case Defined(CGoto) => (Emit(BranchLines(Arg(tokens, 0), Arg(tokens, 1))), labelId)
    case Defined(CIf) => (Emit(BranchLines(Arg(tokens, 0), Arg(tokens, 1))), labelId)
    case Defined(CLabel) => (Emit(BranchLines(Arg(tokens, 0), Arg(tokens, 1))), labelId)
    case _ => (Null, labelId)
  }

  /** parse over successive lines: the translations, and the final counter. */
  function ParseAll(labelId: int, fileName: string, lines: seq<string>): (r: (seq<JsValue<string>>, int))
    ensures |r.0| == |lines|
    decreases |lines|
  {
    if lines == [] then ([], labelId)
    else
      var first := ParseResult(labelId, fileName, lines[0]);
      var rest := ParseAll(first.1, fileName, lines[1..]);
      ([first.0] + rest.0, rest.1)
  }

  // --------------------------------------------------------- the object

  /** The translator's module-level state. */
  class Translator {
    /** INPUT_FILE_META.name. */
    const fileName: string
    /** LABEL_ID. */
    var labelId: int

    constructor (fileName: string)
      ensures this.fileName == fileName && labelId == -1
    {
      this.fileName := fileName;
      labelId := -1;
    }

    /** compute, bumping LABEL_ID for a comparison before using it. */
    method Compute(chunks: seq<string>) returns (r: JsValue<string>)
      modifies this
      ensures labelId == NextLabelId(Arg(chunks, 0), old(labelId))
      ensures r == Emit(ComputeLines(Arg(chunks, 0), labelId))
    {
      var op := Arg(chunks, 0);
      if op.Defined? && IsComparison(op.value) {
        labelId := labelId + 1;
      }
      r := Emit(ComputeLines(op, labelId));
    }

    /** parse. */
    method Parse(line: string) returns (r: JsValue<string>)
      modifies this
      ensures (r, labelId) == ParseResult(old(labelId), fileName, line)
    {
      var tokens := Words(line);
      var kind := CommandType(tokens);
      match kind
      case Defined(CPush) =>
        r := Emit(PushLines(Arg(tokens, 1), Arg(tokens, 2), fileName));
      case Defined(CPop) =>
        r := Emit(PopLines(Arg(tokens, 1), Arg(tokens, 2), fileName));
      case Defined(CArithmetic) =>
        r := Compute(tokens);
      case Defined(CGoto) =>
        r := Emit(BranchLines(Arg(tokens, 0), Arg(tokens, 1)));
      case Defined(CIf) =>
        r := Emit(BranchLines(Arg(tokens, 0), Arg(tokens, 1)));
      case Defined(CLabel) =>
        r := Emit(BranchLines(Arg(tokens, 0), Arg(tokens, 1)));
      case _ =>
        r := Null;
    }

    /** One pass of main's loop: the line's share of the output file. */
    method TranslateLine(line: string) returns (piece: string)
      modifies this
      ensures (piece, labelId) == LineOutput(old(labelId), fileName, line)
    {
      var r := Parse(line);
      if r.Defined? && r.value != "" {
        piece := "// " + line + "\n" + r.value + "\n";
      } else {
        piece := "";
      }
    }

    /** The loop of main: every line is parsed in order, and a translation
        is kept after a comment line holding the VM line. */
    method Translate(lines: seq<string>) returns (out: string)
      modifies this
      ensures (out, labelId) == TranslateResult(old(labelId), fileName, lines)
    {
      out := "";
      var i := 0;
      assert lines[i..] == lines;
      while i < |lines|
        invariant i <= |lines|
        invariant TranslateResult(old(labelId), fileName, lines).0
          == out + TranslateResult(labelId, fileName, lines[i..]).0
        invariant TranslateResult(old(labelId), fileName, lines).1
          == TranslateResult(labelId, fileName, lines[i..]).1
      {
        TranslateAt(labelId, fileName, lines, i);
        var piece := TranslateLine(lines[i]);
        AppendAssociates(out, piece, TranslateResult(labelId, fileName, lines[i + 1..]).0);
        out := out + piece;
        i := i + 1;
      }
      assert lines[i..] == [];
      assert out + "" == out;
    }
  }

  /** What one line adds to the output file. */
  function OutputFor(inst: string, r: JsValue<string>): string
  {
    if r.Defined? && r.value != "" then "// " + inst + "\n" + r.value + "\n" else ""
  }

  /** What one line adds to the output file, and the counter after it. */
  function LineOutput(labelId: int, fileName: string, line: string): (string, int)
  {
    var (r, next) := ParseResult(labelId, fileName, line);
    (OutputFor(line, r), next)
  }

  /** The output file main writes for the lines, and the final counter. */
  function TranslateResult(labelId: int, fileName: string, lines: seq<string>): (string, int)
    decreases |lines|
  {
    if lines == [] then ("", labelId)
    else
      var (piece, next) := LineOutput(labelId, fileName, lines[0]);
      var (rest, last) := TranslateResult(next, fileName, lines[1..]);
      (piece + rest, last)
  }

  /** The share of the output from line i on. */
  lemma TranslateAt(labelId: int, fileName: string, lines: seq<string>, i: nat)
    requires i < |lines|
    ensures var next := LineOutput(labelId, fileName, lines[i]).1;
      TranslateResult(labelId, fileName, lines[i..])
      == (LineOutput(labelId, fileName, lines[i]).0 + TranslateResult(next, fileName, lines[i + 1..]).0,
          TranslateResult(next, fileName, lines[i + 1..]).1)
  {
    assert lines[i..][0] == lines[i] && lines[i..][1..] == lines[i + 1..];
  }

  lemma AppendAssociates(a: string, b: string, c: string)
    ensures a + (b + c) == (a + b) + c
  {
  }
}
