/**
  Properties of the VM translator's text (projects/7/VMTranslator.js): which
  lines `parse` translates, the shape of the push and pop templates, the
  lines a translation splits back into, and the label numbers successive
  comparisons receive from the counter.
*/
module VmProperties {
  import opened Js
  import opened Vm

  // ------------------------------------------------------ words of a line

  /** The first and last characters of a join are those of the first and last pieces. */
  lemma {:induction false} JoinEnds(ws: seq<string>, sep: string)
    requires |ws| >= 1 && forall k | 0 <= k < |ws| :: ws[k] != []
    ensures var s := Join(ws, sep);
      s != [] && s[0] == ws[0][0] && s[|s| - 1] == ws[|ws| - 1][|ws[|ws| - 1]| - 1]
  {
    if |ws| > 1 {
      JoinEnds(ws[1..], sep);
    }
  }

  /** A line written as words separated by single spaces, none holding
      whitespace, falls apart into exactly those words. */
  lemma WordsOfJoin(ws: seq<string>)
    requires |ws| >= 1 && forall k | 0 <= k < |ws| :: IsWord(ws[k])
    ensures Words(Join(ws, " ")) == ws
  {
    var s := Join(ws, " ");
    JoinEnds(ws, " ");
    assert !IsWhiteSpace(s[0]) && !IsWhiteSpace(s[|s| - 1]);
    assert TrimStart(s) == s;
    assert TrimEnd(s) == s;
    SplitJoin(ws, ' ');
  }

  /** A word of a VM command: non-empty and without whitespace. */
  predicate IsWord(w: string)
  {
    w != [] && forall i | 0 <= i < |w| :: !IsWhiteSpace(w[i])
  }

  /** `<command> <segment> <index>` falls apart into its three words. */
  lemma WordsOfTriple(c: string, s: string, i: string)
    requires IsWord(c) && IsWord(s) && IsWord(i)
    ensures Words(c + " " + s + " " + i) == [c, s, i]
  {
    var ws := [c, s, i];
    assert Join(ws[2..], " ") == i;
    assert Join(ws, " ") == c + " " + (s + " " + i);
    WordsOfJoin(ws);
    assert c + " " + s + " " + i == c + " " + (s + " " + i);
  }

  // ------------------------------------------------------ classification

  /** The command types parse has a case for. */
  predicate Translated(kind: JsValue<CommandKind>)
  {
    kind.Defined? && kind.value in {CPush, CPop, CArithmetic, CGoto, CIf, CLabel}
  }

  /** commandtype's arithmetic case holds the eight words of its list, and
      `not` is not among them. */
  lemma ArithmeticWords(tokens: seq<string>)
    requires tokens != []
    ensures CommandType(tokens) == Defined(CArithmetic)
      <==> tokens[0] in {"add", "sub", "neg", "and", "or", "gt", "lt", "eq"}
    ensures CommandType(["not"]) == Undefined
  {
  }

  /** parse gives null exactly for the lines whose command type it has no
      case for, and then leaves the counter alone; every other line gives a
      string or undefined. */
  lemma ParseNullIff(labelId: int, fileName: string, line: string)
    ensures var r := ParseResult(labelId, fileName, line);
      (r.0 == Null <==> !Translated(CommandType(Words(line))))
      && (r.0 == Null ==> r.1 == labelId)
  {
  }

  /** `not`, `function`, `call` and `return` lines give null. */
  lemma UntranslatedWords(labelId: int, fileName: string, line: string)
    requires Words(line)[0] in {"not", "function", "call", "return"}
    ensures ParseResult(labelId, fileName, line) == (Null, labelId)
  {
    UntranslatedCommand(Words(line));
  }

  /** commandtype sends these four words nowhere parse translates. */
  lemma UntranslatedCommand(tokens: seq<string>)
    requires tokens != [] && tokens[0] in {"not", "function", "call", "return"}
    ensures !Translated(CommandType(tokens))
  {
  }

  // ------------------------------------------------------ emitted lines

  /** The joined template splits back, at the newlines, into its lines. */
  lemma EmitSplit(ls: seq<string>)
    requires |ls| >= 1 && forall k | 0 <= k < |ls| :: '\n' !in ls[k]
    ensures Emit(Defined(ls)).Defined? && Split(Emit(Defined(ls)).value, {'\n'}) == ls
  {
    SplitJoin(ls, '\n');
  }

  /** `push constant i` translates to exactly seven lines. */
  lemma PushConstantText(labelId: int, fileName: string, i: string)
    requires IsWord(i)
    ensures var r := ParseResult(labelId, fileName, "push" + " " + "constant" + " " + i);
      r.1 == labelId && r.0.Defined?
      && Split(r.0.value, {'\n'}) == ["@" + i, "D=A", "@SP", "A=M", "M=D", "@SP", "M=M+1"]
  {
    WordsOfTriple("push", "constant", i);
    var ls := ["@" + i, "D=A", "@SP", "A=M", "M=D", "@SP", "M=M+1"];
    forall k | 0 <= k < |ls[0]| ensures ls[0][k] != '\n' {
      if k > 0 {
        assert ls[0][k] == i[k - 1];
      }
    }
    EmitSplit(ls);
  }

  /** pop has no constant case: `pop constant i` translates to undefined. */
  lemma PopConstantUndefined(labelId: int, fileName: string, i: string)
    requires IsWord(i)
    ensures ParseResult(labelId, fileName, "pop" + " " + "constant" + " " + i) == (Undefined, labelId)
  {
    WordsOfTriple("pop", "constant", i);
  }

  /** The eight segments push knows. */
  predicate PushSegment(s: string)
  {
    s in {"local", "argument", "this", "that", "constant", "temp", "static", "pointer"}
  }

  /** push has a template exactly for the eight segments. */
  lemma PushDefinedIff(segment: JsValue<string>, index: JsValue<string>, fileName: string)
    ensures PushLines(segment, index, fileName).Defined?
      <==> segment.Defined? && PushSegment(segment.value)
    ensures !PushLines(segment, index, fileName).Null?
  {
  }

  /** pop has a template for the same segments except constant. */
  lemma PopDefinedIff(segment: JsValue<string>, index: JsValue<string>, fileName: string)
    ensures PopLines(segment, index, fileName).Defined?
      <==> segment.Defined? && PushSegment(segment.value) && segment.value != "constant"
    ensures !PopLines(segment, index, fileName).Null?
  {
  }

  /** A line written `@x` is no register move. */
  lemma AddressLine(x: string)
    ensures "@" + x != "M=M+1" && "@" + x != "M=M-1"
  {
    assert ("@" + x)[0] == '@';
  }

  /** The lines end with `@SP`, `M=M+1`, which is their only increment, and
      they never decrement. */
  predicate IncrementsOnceAtEnd(ls: seq<string>)
  {
    |ls| >= 2 && ls[|ls| - 2..] == ["@SP", "M=M+1"]
    && multiset(ls)["M=M+1"] == 1 && multiset(ls)["M=M-1"] == 0
  }

  /** The lines hold `@SP`, `M=M-1` once, which is their only decrement, and
      they never increment. */
  predicate DecrementsOnce(ls: seq<string>)
  {
    multiset(ls)["M=M-1"] == 1 && multiset(ls)["M=M+1"] == 0
    && exists k | 0 <= k < |ls| - 1 :: ls[k] == "@SP" && ls[k + 1] == "M=M-1"
  }

  /** A block that moves SP neither way, followed by `@SP`, `M=M+1`. */
  lemma IncrementLast(body: seq<string>)
    requires "M=M+1" !in body && "M=M-1" !in body
    ensures IncrementsOnceAtEnd(body + ["@SP", "M=M+1"])
  {
    var ls := body + ["@SP", "M=M+1"];
    assert ls[|ls| - 2..] == ["@SP", "M=M+1"];
    assert multiset(ls) == multiset(body) + multiset(["@SP", "M=M+1"]);
  }

  /** `@SP`, `M=M-1` between two blocks that move SP neither way. */
  lemma DecrementBetween(head: seq<string>, tail: seq<string>)
    requires "M=M+1" !in head && "M=M-1" !in head
    requires "M=M+1" !in tail && "M=M-1" !in tail
    ensures DecrementsOnce(head + ["@SP", "M=M-1"] + tail)
  {
    var ls := head + ["@SP", "M=M-1"] + tail;
    assert multiset(ls) == multiset(head) + multiset(["@SP", "M=M-1"]) + multiset(tail);
    assert ls[|head|] == "@SP" && ls[|head| + 1] == "M=M-1";
  }

  lemma PushBaseShape(s: string, index: JsValue<string>, fileName: string)
    requires IsSegmentBase(s)
    ensures IncrementsOnceAtEnd(PushLines(Defined(s), index, fileName).value)
  {
    var i := Show(index);
    AddressLine(i);
    AddressLine(Show(SegmentCode(s)));
    var body := ["@" + i, "D=A", "@" + Show(SegmentCode(s)), "A=M+D", "D=M", "@SP", "A=M", "M=D"];
    assert PushLines(Defined(s), index, fileName).value == body + ["@SP", "M=M+1"];
    IncrementLast(body);
  }

  lemma PushConstantShape(index: JsValue<string>, fileName: string)
    ensures IncrementsOnceAtEnd(PushLines(Defined("constant"), index, fileName).value)
  {
    var i := Show(index);
    AddressLine(i);
    var body := ["@" + i, "D=A", "@SP", "A=M", "M=D"];
    assert !IsSegmentBase("constant");
    assert PushLines(Defined("constant"), index, fileName).value == body + ["@SP", "M=M+1"];
    IncrementLast(body);
  }

  lemma PushTempShape(index: JsValue<string>, fileName: string)
    ensures IncrementsOnceAtEnd(PushLines(Defined("temp"), index, fileName).value)
  {
    var i := Show(index);
    AddressLine(i);
    var body := ["@13", "D=A", "@" + i, "D=D+A", "A=D", "D=M", "@SP", "A=M", "M=D"];
    assert !IsSegmentBase("temp");
    assert PushLines(Defined("temp"), index, fileName).value == body + ["@SP", "M=M+1"];
    IncrementLast(body);
  }

  lemma PushStaticShape(index: JsValue<string>, fileName: string)
    ensures IncrementsOnceAtEnd(PushLines(Defined("static"), index, fileName).value)
  {
    AddressLine(StaticName(fileName, index));
    var body := ["@" + StaticName(fileName, index), "D=M", "@SP", "A=M", "M=D"];
    assert !IsSegmentBase("static");
    assert PushLines(Defined("static"), index, fileName).value == body + ["@SP", "M=M+1"];
    IncrementLast(body);
  }

  lemma PushPointerShape(index: JsValue<string>, fileName: string)
    ensures IncrementsOnceAtEnd(PushLines(Defined("pointer"), index, fileName).value)
  {
    var body := [PointerAddress(index), "D=M", "@SP", "A=M", "M=D"];
    assert !IsSegmentBase("pointer");
    assert PushLines(Defined("pointer"), index, fileName).value == body + ["@SP", "M=M+1"];
    IncrementLast(body);
  }

  /** Every push template ends with `@SP`, `M=M+1`, which is its only
      increment, and it never decrements. */
  lemma PushEndsWithIncrement(segment: JsValue<string>, index: JsValue<string>, fileName: string)
    requires PushLines(segment, index, fileName).Defined?
    ensures IncrementsOnceAtEnd(PushLines(segment, index, fileName).value)
  {
    var s := segment.value;
    if IsSegmentBase(s) {
      PushBaseShape(s, index, fileName);
    } else if s == "constant" {
      PushConstantShape(index, fileName);
    } else if s == "temp" {
      PushTempShape(index, fileName);
    } else if s == "static" {
      PushStaticShape(index, fileName);
    } else if s == "pointer" {
      PushPointerShape(index, fileName);
    } else {
      assert false;
    }
  }

  lemma PopBaseShape(s: string, index: JsValue<string>, fileName: string)
    requires IsSegmentBase(s)
    ensures DecrementsOnce(PopLines(Defined(s), index, fileName).value)
  {
    var i := Show(index);
    AddressLine(i);
    AddressLine(Show(SegmentCode(s)));
    var head := ["@" + i, "D=A", "@" + Show(SegmentCode(s)), "D=D+M", "@addr", "M=D"];
    var tail := ["A=M", "D=M", "@addr", "A=M", "M=D"];
    assert PopLines(Defined(s), index, fileName).value == head + ["@SP", "M=M-1"] + tail;
    DecrementBetween(head, tail);
  }

  lemma PopTempShape(index: JsValue<string>, fileName: string)
    ensures DecrementsOnce(PopLines(Defined("temp"), index, fileName).value)
  {
    var i := Show(index);
    AddressLine(i);
    var head := ["@13", "D=A", "@" + i, "D=D+A", "@addr", "M=D"];
    var tail := ["A=M", "D=M", "@addr", "A=M", "M=D"];
    PopTempLines(index, fileName);
    assert PopLines(Defined("temp"), index, fileName).value == head + ["@SP", "M=M-1"] + tail;
    DecrementBetween(head, tail);
  }

  /** The temp pop template, line by line. */
  lemma PopTempLines(index: JsValue<string>, fileName: string)
    ensures PopLines(Defined("temp"), index, fileName)
      == Defined(["@13", "D=A", "@" + Show(index), "D=D+A", "@addr", "M=D",
                  "@SP", "M=M-1", "A=M", "D=M", "@addr", "A=M", "M=D"])
  {
    assert !IsSegmentBase("temp");
  }

  lemma PopStaticShape(index: JsValue<string>, fileName: string)
    ensures DecrementsOnce(PopLines(Defined("static"), index, fileName).value)
  {
    AddressLine(StaticName(fileName, index));
    var tail := ["A=M", "D=M", "@" + StaticName(fileName, index), "M=D"];
    assert !IsSegmentBase("static");
    assert PopLines(Defined("static"), index, fileName).value == [] + ["@SP", "M=M-1"] + tail;
    DecrementBetween([], tail);
  }

  lemma PopPointerShape(index: JsValue<string>, fileName: string)
    ensures DecrementsOnce(PopLines(Defined("pointer"), index, fileName).value)
  {
    var tail := ["A=M", "D=M", PointerAddress(index), "M=D"];
    assert !IsSegmentBase("pointer");
    assert PopLines(Defined("pointer"), index, fileName).value == [] + ["@SP", "M=M-1"] + tail;
    DecrementBetween([], tail);
  }

  /** Every pop template holds exactly one `@SP`, `M=M-1`, and never increments. */
  lemma PopDecrementsOnce(segment: JsValue<string>, index: JsValue<string>, fileName: string)
    requires PopLines(segment, index, fileName).Defined?
    ensures DecrementsOnce(PopLines(segment, index, fileName).value)
  {
    var s := segment.value;
    if IsSegmentBase(s) {
      PopBaseShape(s, index, fileName);
    } else if s == "temp" {
      PopTempShape(index, fileName);
    } else if s == "static" {
      PopStaticShape(index, fileName);
    } else if s == "pointer" {
      PopPointerShape(index, fileName);
    } else {
      assert false;
    }
  }

  /** `pointer 0` addresses THIS (`@3`) and every other numeral THAT (`@4`);
      a radix spelling of zero such as `0x0` also selects THIS. */
  lemma PointerIndexChoosesCell(i: string)
    ensures IsDigits(i) ==> (PointerAddress(Defined(i)) == "@3" <==> DecimalValue(i) == 0)
    ensures RadixZero(i) ==> PointerAddress(Defined(i)) == "@3"
  {
    if IsDigits(i) {
      DigitsZeroTest(i);
    }
    if RadixZero(i) {
      RadixZeroIsZero(i);
    }
  }

  // ------------------------------------------------------------ labels

  /** How many of the lines are comparisons. */
  function Comparisons(lines: seq<string>): nat
  {
    if lines == [] then 0
    else (if IsComparison(Words(lines[0])[0]) then 1 else 0) + Comparisons(lines[1..])
  }

  /** parse moves the counter up by one for a comparison and otherwise not. */
  lemma ParseCounter(labelId: int, fileName: string, line: string)
    ensures ParseResult(labelId, fileName, line).1
      == labelId + (if IsComparison(Words(line)[0]) then 1 else 0)
  {
  }

  /** A comparison takes the next number and writes the comparison template with it. */
  lemma ComparisonTakesNextLabel(labelId: int, fileName: string, line: string, next: int)
    requires IsComparison(Words(line)[0]) && next == labelId + 1
    ensures ParseResult(labelId, fileName, line)
      == (Defined(Join(ComparisonLines(Words(line)[0], next), "\n")), next)
  {
    var tokens := Words(line);
    ComparisonCommand(tokens);
    ComparisonCompute(tokens[0], labelId, next);
    assert Arg(tokens, 0) == Defined(tokens[0]);
  }

  /** A comparison word is an arithmetic command. */
  lemma ComparisonCommand(tokens: seq<string>)
    requires tokens != [] && IsComparison(tokens[0])
    ensures CommandType(tokens) == Defined(CArithmetic)
  {
  }

  /** compute moves the counter on for a comparison and numbers its
      template with the new value. */
  lemma ComparisonCompute(op: string, labelId: int, next: int)
    requires IsComparison(op) && next == labelId + 1
    ensures NextLabelId(Defined(op), labelId) == next
    ensures ComputeLines(Defined(op), next) == Defined(ComparisonLines(op, next))
  {
  }

  /** Over a run of lines, the counter ends up raised by the number of comparisons. */
  lemma {:induction false} ParseAllCounter(labelId: int, fileName: string, lines: seq<string>)
    ensures ParseAll(labelId, fileName, lines).1 == labelId + Comparisons(lines)
    decreases |lines|
  {
    if lines != [] {
      ParseCounter(labelId, fileName, lines[0]);
      ParseAllCounter(ParseResult(labelId, fileName, lines[0]).1, fileName, lines[1..]);
    }
  }

  /** The first result of a run is parse of its first line. */
  lemma ParseAllFirst(labelId: int, fileName: string, lines: seq<string>)
    requires lines != []
    ensures ParseAll(labelId, fileName, lines).0[0] == ParseResult(labelId, fileName, lines[0]).0
  {
  }

  /** Every later result is a result of the run after the first line, which
      starts from the counter the first line leaves. */
  lemma ParseAllRest(labelId: int, fileName: string, lines: seq<string>, i: nat)
    requires 0 < i < |lines|
    ensures ParseAll(labelId, fileName, lines).0[i]
      == ParseAll(ParseResult(labelId, fileName, lines[0]).1, fileName, lines[1..]).0[i - 1]
  {
    var first := ParseResult(labelId, fileName, lines[0]);
    var rest := ParseAll(first.1, fileName, lines[1..]);
    assert ParseAll(labelId, fileName, lines).0 == [first.0] + rest.0;
  }

  /** Dropping the first line commutes with cutting before line i. */
  lemma SliceTail(lines: seq<string>, i: nat)
    requires 0 < i <= |lines|
    ensures lines[..i] != [] && lines[..i][0] == lines[0]
    ensures lines[..i][1..] == lines[1..][..i - 1]
  {
  }

  /** The comparisons before line i are the first line's share and those
      between it and line i. */
  lemma ComparisonsCons(lines: seq<string>, i: nat)
    requires 0 < i <= |lines|
    ensures Comparisons(lines[..i])
      == (if IsComparison(Words(lines[0])[0]) then 1 else 0) + Comparisons(lines[1..][..i - 1])
  {
    SliceTail(lines, i);
  }

  /** Line i is parsed with the counter c, the starting counter raised by
      the comparisons before it. */
  lemma {:induction false} ParseAllAt(labelId: int, fileName: string, lines: seq<string>, i: nat, c: int)
    requires i < |lines| && c == labelId + Comparisons(lines[..i])
    ensures ParseAll(labelId, fileName, lines).0[i] == ParseResult(c, fileName, lines[i]).0
    decreases i
  {
    if i == 0 {
      assert lines[..i] == [];
      assert c == labelId;
      ParseAllFirst(labelId, fileName, lines);
    } else {
      var next := ParseResult(labelId, fileName, lines[0]).1;
      CounterAfterFirst(labelId, fileName, lines, i, c);
      ParseAllAt(next, fileName, lines[1..], i - 1, c);
      ParseAllShift(labelId, fileName, lines, i, c);
    }
  }

  /** The counter before line i, seen from the run after the first line. */
  lemma CounterAfterFirst(labelId: int, fileName: string, lines: seq<string>, i: nat, c: int)
    requires 0 < i < |lines| && c == labelId + Comparisons(lines[..i])
    ensures c == ParseResult(labelId, fileName, lines[0]).1 + Comparisons(lines[1..][..i - 1])
  {
    ParseCounter(labelId, fileName, lines[0]);
    ComparisonsCons(lines, i);
  }

  /** What holds of line i - 1 after the first line holds of line i. */
  lemma ParseAllShift(labelId: int, fileName: string, lines: seq<string>, i: nat, c: int)
    requires 0 < i < |lines|
    requires ParseAll(ParseResult(labelId, fileName, lines[0]).1, fileName, lines[1..]).0[i - 1]
      == ParseResult(c, fileName, lines[1..][i - 1]).0
    ensures ParseAll(labelId, fileName, lines).0[i] == ParseResult(c, fileName, lines[i]).0
  {
    ParseAllRest(labelId, fileName, lines, i);
    assert lines[1..][i - 1] == lines[i];
  }

  /** Counting over a longer prefix adds the last line's share. */
  lemma {:induction false} ComparisonsSnoc(p: seq<string>, x: string)
    ensures Comparisons(p + [x]) == Comparisons(p) + (if IsComparison(Words(x)[0]) then 1 else 0)
    decreases |p|
  {
    var q := p + [x];
    if p == [] {
      assert q == [x];
      assert Comparisons([x]) == (if IsComparison(Words(x)[0]) then 1 else 0) + Comparisons([]);
    } else {
      assert q[0] == p[0];
      assert q[1..] == p[1..] + [x];
      assert Comparisons(q) == (if IsComparison(Words(p[0])[0]) then 1 else 0) + Comparisons(p[1..] + [x]);
      ComparisonsSnoc(p[1..], x);
    }
  }

  /** A comparison at i makes every longer prefix count more than the prefix before i. */
  lemma {:induction false} ComparisonsGrow(lines: seq<string>, i: nat, j: nat)
    requires i < j <= |lines| && IsComparison(Words(lines[i])[0])
    ensures Comparisons(lines[..i]) < Comparisons(lines[..j])
    decreases j
  {
    assert lines[..j] == lines[..j - 1] + [lines[j - 1]];
    ComparisonsSnoc(lines[..j - 1], lines[j - 1]);
    if j - 1 > i {
      ComparisonsGrow(lines, i, j - 1);
    }
  }

  /** `${LABEL_ID}` tells different numbers apart. */
  lemma IntToStringInjective(a: int, b: int)
    requires a != b
    ensures IntToString(a) != IntToString(b)
  {
    if a < 0 && b < 0 {
      NegativesApart(a, b);
    } else if a >= 0 && b >= 0 {
      NatToStringInjective(a, b);
    } else if a < 0 {
      SignsApart(a, b);
    } else {
      SignsApart(b, a);
    }
  }

  /** Two different negative numbers differ after the minus sign. */
  lemma NegativesApart(a: int, b: int)
    requires a < 0 && b < 0 && a != b
    ensures IntToString(a) != IntToString(b)
  {
    NatToStringInjective(-a, -b);
    PrefixKeepsApart("-", NatToString(-a), NatToString(-b));
  }

  /** A negative number and one that is not differ in the first character. */
  lemma SignsApart(a: int, b: int)
    requires a < 0 <= b
    ensures IntToString(a) != IntToString(b)
  {
    assert IntToString(a)[0] == '-';
    assert IsDigit(IntToString(b)[0]);
  }

  /** A common prefix keeps different texts different. */
  lemma PrefixKeepsApart(p: string, x: string, y: string)
    requires x != y
    ensures p + x != p + y
  {
    assert (p + x)[|p|..] == x && (p + y)[|p|..] == y;
  }

  /** A comparison at line i writes the template numbered with the counter
      before it, plus one. */
  lemma ComparisonOutputAt(labelId: int, fileName: string, lines: seq<string>, i: nat, a: int)
    requires i < |lines| && IsComparison(Words(lines[i])[0])
    requires a == labelId + Comparisons(lines[..i]) + 1
    ensures ParseAll(labelId, fileName, lines).0[i]
      == Defined(Join(ComparisonLines(Words(lines[i])[0], a), "\n"))
  {
    ParseAllAt(labelId, fileName, lines, i, a - 1);
    ComparisonTakesNextLabel(a - 1, fileName, lines[i], a);
  }

  /** Different numbers give different labels. */
  lemma LabelsDiffer(a: int, b: int)
    requires a != b
    ensures "jump_true_" + IntToString(a) != "jump_true_" + IntToString(b)
    ensures "continue_" + IntToString(a) != "continue_" + IntToString(b)
  {
    IntToStringInjective(a, b);
    PrefixKeepsApart("jump_true_", IntToString(a), IntToString(b));
    PrefixKeepsApart("continue_", IntToString(a), IntToString(b));
  }

  /** Two comparisons in one run of lines get different numbers, and hence
      different `jump_true_` and `continue_` labels. */
  lemma ComparisonLabelsDistinct(labelId: int, fileName: string, lines: seq<string>, i: nat, j: nat, a: int, b: int)
    requires i < j < |lines|
    requires IsComparison(Words(lines[i])[0]) && IsComparison(Words(lines[j])[0])
    requires a == labelId + Comparisons(lines[..i]) + 1 && b == labelId + Comparisons(lines[..j]) + 1
    ensures var out := ParseAll(labelId, fileName, lines).0;
      && out[i] == Defined(Join(ComparisonLines(Words(lines[i])[0], a), "\n"))
      && out[j] == Defined(Join(ComparisonLines(Words(lines[j])[0], b), "\n"))
      && a < b
      && "jump_true_" + IntToString(a) != "jump_true_" + IntToString(b)
      && "continue_" + IntToString(a) != "continue_" + IntToString(b)
  {
    ComparisonOutputAt(labelId, fileName, lines, i, a);
    ComparisonOutputAt(labelId, fileName, lines, j, b);
    ComparisonsGrow(lines, i, j);
    LabelsDiffer(a, b);
  }
}
