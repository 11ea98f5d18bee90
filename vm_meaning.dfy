/**
  What the VM translator's templates do on the Hack machine.  Each lemma
  decodes one template and runs it, and states the effect on memory: RAM[0]
  is SP, the stack grows upwards from the cell SP points at, RAM[1..4] hold
  the bases of local, argument, this and that, temp is RAM[5..12] as
  addressed from 13 by this translator, and `addr` is the assembler
  variable pop keeps its target address in.  Cells a template does not
  write keep their contents.
*/
module VmMeaning {
  import opened Js
  import opened Hack
  import Vm

  /** The value `@i` loads for a decimal index. */
  function Index(i: string): int
    requires IsDigits(i)
  {
    Constant(DecimalValue(i))
  }

  /** The address the assembler gives a variable or label name. */
  function Variable(symbols: map<string, nat>, name: string): int
  {
    Load(symbols, Named(name))
  }

  /** The stack pointer. */
  function Sp(m: Machine): int
  {
    Read(m, 0)
  }

  /** The register holding a segment's base. */
  function BaseRegister(segment: string): Symbol
  {
    match segment
    case "local" => LCL
    case "argument" => ARG
    case "this" => THIS
    case _ => THAT
  }

  /** The cell `pointer i` addresses. */
  function PointerCell(i: JsValue<string>): int
  {
    if LooseNotZero(i) then 4 else 3
  }

  // ----------------------------------------------------------- decoding

  /** A decimal index names no register. */
  lemma DecodeIndex(i: string)
    requires IsDigits(i)
    ensures Decode("@" + i) == At(Named(i))
  {
    DecodeAt(i);
    NamedSymbol(i);
  }

  lemma DecodeRegisters()
    ensures Decode("@SP") == At(SP) && Decode("@LCL") == At(LCL) && Decode("@ARG") == At(ARG)
    ensures Decode("@THIS") == At(THIS) && Decode("@THAT") == At(THAT)
  {
    DecodeAt("SP");
    DecodeAt("LCL");
    DecodeAt("ARG");
    DecodeAt("THIS");
    DecodeAt("THAT");
  }

  lemma DecodeAddr()
    ensures Decode("@addr") == At(Named("addr")) && !IsDigits("addr")
  {
    assert !IsDigit("addr"[0]);
    DecodeAt("addr");
    NamedSymbol("addr");
  }

  lemma DecodeThirteen()
    ensures Decode("@13") == At(Named("13")) && Load(map[], Named("13")) == 13
  {
    assert IsDigits("13") && DecimalValue("13") == 13 by {
      assert "13"[..1] == "1" && "1"[..0] == "";
    }
    DecodeIndex("13");
  }

  /** The base register's line of a segment template. */
  lemma DecodeSegment(segment: string)
    requires Vm.IsSegmentBase(segment)
    ensures Decode("@" + Show(Vm.SegmentCode(segment))) == At(BaseRegister(segment))
    ensures 1 <= Load(map[], BaseRegister(segment)) <= 4
  {
    DecodeRegisters();
    match segment
    case "local" => assert "@" + Show(Vm.SegmentCode(segment)) == "@LCL";
    case "argument" => assert "@" + Show(Vm.SegmentCode(segment)) == "@ARG";
    case "this" => assert "@" + Show(Vm.SegmentCode(segment)) == "@THIS";
    case "that" => assert "@" + Show(Vm.SegmentCode(segment)) == "@THAT";
  }

  /** A name holding a dot is neither a register nor a number. */
  lemma DecodeDotted(name: string)
    requires '.' in name
    ensures Decode("@" + name) == At(Named(name)) && !IsDigits(name)
  {
    DecodeAt(name);
    assert name != "SP" && name != "LCL" && name != "ARG" && name != "THIS" && name != "THAT";
  }

  lemma DecodePointer(i: JsValue<string>)
    ensures Decode(Vm.PointerAddress(i)) == At(Named(if LooseNotZero(i) then "4" else "3"))
    ensures Load(map[], Named(if LooseNotZero(i) then "4" else "3")) == PointerCell(i)
  {
    assert IsDigits("3") && DecimalValue("3") == 3 by { assert "3"[..0] == ""; }
    assert IsDigits("4") && DecimalValue("4") == 4 by { assert "4"[..0] == ""; }
    DecodeIndex("3");
    DecodeIndex("4");
    assert "@" + "3" == "@3" && "@" + "4" == "@4";
  }

  // --------------------------------------------------------------- parts

  /** @SP A=M M=D @SP M=M+1: D goes on top of the stack. */
  function PushD(): seq<Instr>
  {
    [At(SP), Set(A, Of(M)), Set(M, Of(D)), At(SP), Set(M, Inc(M))]
  }

  lemma PushDMeaning(symbols: map<string, nat>, m: Machine)
    requires Sp(m) != 0
    ensures Effect(symbols, PushD(), m).ram == m.ram[Sp(m) := m.d][0 := Wrap(Sp(m) + 1)]
  {
    var prog := PushD();
    var sp := Sp(m);
    var m1 := m.(a := 0);
    var m2 := m1.(a := sp);
    var m3 := m2.(ram := m2.ram[sp := m.d]);
    var m4 := m3.(a := 0);
    var m5 := m4.(ram := m4.ram[0 := Wrap(sp + 1)]);
    assert Exec(symbols, prog, 0, 1, m) == m1;
    assert Exec(symbols, prog, 0, 2, m) == m2;
    assert Exec(symbols, prog, 0, 3, m) == m3;
    assert Exec(symbols, prog, 0, 4, m) == m4;
    assert Exec(symbols, prog, 0, 5, m) == m5;
  }

  /** @SP M=M-1 A=M D=M: the top of the stack goes to D, and A to its cell. */
  function PopD(): seq<Instr>
  {
    [At(SP), Set(M, Dec(M)), Set(A, Of(M)), Set(D, Of(M))]
  }

  lemma PopDMeaning(symbols: map<string, nat>, m: Machine)
    requires Wrap(Sp(m) - 1) != 0
    ensures var r := Effect(symbols, PopD(), m);
      r.ram == m.ram[0 := Wrap(Sp(m) - 1)] && r.a == Wrap(Sp(m) - 1) && r.d == Read(m, Wrap(Sp(m) - 1))
  {
    var prog := PopD();
    var top := Wrap(Sp(m) - 1);
    var m1 := m.(a := 0);
    var m2 := m1.(ram := m1.ram[0 := top]);
    var m3 := m2.(a := top);
    var m4 := m3.(d := Read(m, top));
    assert Exec(symbols, prog, 0, 1, m) == m1;
    assert Exec(symbols, prog, 0, 2, m) == m2;
    assert Exec(symbols, prog, 0, 3, m) == m3;
    assert Exec(symbols, prog, 0, 4, m) == m4;
  }

  /** @s D=M: the cell s names goes to D. */
  lemma FetchMeaning(symbols: map<string, nat>, s: Symbol, m: Machine)
    ensures var r := Effect(symbols, [At(s), Set(D, Of(M))], m);
      r.ram == m.ram && r.d == Read(m, Load(symbols, s))
  {
    var prog := [At(s), Set(D, Of(M))];
    assert Exec(symbols, prog, 0, 1, m) == m.(a := Load(symbols, s));
  }

  /** @s M=D: D goes to the cell s names. */
  lemma StoreMeaning(symbols: map<string, nat>, s: Symbol, m: Machine)
    ensures Effect(symbols, [At(s), Set(M, Of(D))], m).ram == m.ram[Load(symbols, s) := m.d]
  {
    var prog := [At(s), Set(M, Of(D))];
    assert Exec(symbols, prog, 0, 1, m) == m.(a := Load(symbols, s));
  }

  /** @addr A=M M=D: D goes to the cell whose address `addr` holds. */
  lemma StoreIndirectMeaning(symbols: map<string, nat>, m: Machine)
    ensures Effect(symbols, [At(Named("addr")), Set(A, Of(M)), Set(M, Of(D))], m).ram
      == m.ram[Read(m, Variable(symbols, "addr")) := m.d]
  {
    var prog := [At(Named("addr")), Set(A, Of(M)), Set(M, Of(D))];
    var m1 := m.(a := Variable(symbols, "addr"));
    var m2 := m1.(a := Read(m, Variable(symbols, "addr")));
    assert Exec(symbols, prog, 0, 1, m) == m1;
    assert Exec(symbols, prog, 0, 2, m) == m2;
  }

  /** @i D=A @base A=M+D D=M: the segment's i-th cell goes to D. */
  lemma SegmentFetchMeaning(symbols: map<string, nat>, i: string, base: Symbol, m: Machine)
    requires IsDigits(i) && !base.Named?
    ensures var r := Effect(symbols, [At(Named(i)), Set(D, Of(A)), At(base), Set(A, Sum(M, D)), Set(D, Of(M))], m);
      r.ram == m.ram && r.d == Read(m, Wrap(Read(m, Load(symbols, base)) + Index(i)))
  {
    var prog := [At(Named(i)), Set(D, Of(A)), At(base), Set(A, Sum(M, D)), Set(D, Of(M))];
    var n := Index(i);
    var t := Wrap(Read(m, Load(symbols, base)) + n);
    var m1 := m.(a := n);
    var m2 := m1.(d := n);
    var m3 := m2.(a := Load(symbols, base));
    var m4 := m3.(a := t);
    assert Exec(symbols, prog, 0, 1, m) == m1;
    assert Exec(symbols, prog, 0, 2, m) == m2;
    assert Exec(symbols, prog, 0, 3, m) == m3;
    assert Exec(symbols, prog, 0, 4, m) == m4;
  }

  /** @13 D=A @i D=D+A: the address of temp's i-th cell goes to D. */
  lemma TempAddressMeaning(symbols: map<string, nat>, i: string, m: Machine)
    requires IsDigits(i)
    ensures var r := Effect(symbols, [At(Named("13")), Set(D, Of(A)), At(Named(i)), Set(D, Sum(D, A))], m);
      r.ram == m.ram && r.d == Wrap(13 + Index(i))
  {
    DecodeThirteen();
    var prog := [At(Named("13")), Set(D, Of(A)), At(Named(i)), Set(D, Sum(D, A))];
    var m1 := m.(a := 13);
    var m2 := m1.(d := 13);
    var m3 := m2.(a := Index(i));
    assert Exec(symbols, prog, 0, 1, m) == m1;
    assert Exec(symbols, prog, 0, 2, m) == m2;
    assert Exec(symbols, prog, 0, 3, m) == m3;
  }

  /** @i D=A @base D=D+M: the address of the segment's i-th cell goes to D. */
  lemma SegmentAddressMeaning(symbols: map<string, nat>, i: string, base: Symbol, m: Machine)
    requires IsDigits(i) && !base.Named?
    ensures var r := Effect(symbols, [At(Named(i)), Set(D, Of(A)), At(base), Set(D, Sum(D, M))], m);
      r.ram == m.ram && r.d == Wrap(Index(i) + Read(m, Load(symbols, base)))
  {
    var prog := [At(Named(i)), Set(D, Of(A)), At(base), Set(D, Sum(D, M))];
    var m1 := m.(a := Index(i));
    var m2 := m1.(d := Index(i));
    var m3 := m2.(a := Load(symbols, base));
    assert Exec(symbols, prog, 0, 1, m) == m1;
    assert Exec(symbols, prog, 0, 2, m) == m2;
    assert Exec(symbols, prog, 0, 3, m) == m3;
  }

  /** The cell holding a segment's base. */
  function BaseCell(segment: string): int
  {
    match segment
    case "local" => 1
    case "argument" => 2
    case "this" => 3
    case _ => 4
  }

  lemma BaseCellLoaded(symbols: map<string, nat>, segment: string)
    ensures Load(symbols, BaseRegister(segment)) == BaseCell(segment)
  {
  }

  lemma PushDLines()
    ensures Program(["@SP", "A=M", "M=D", "@SP", "M=M+1"]) == PushD()
  {
    DecodeRegisters();
    DecodeMoves();
    DecodeArithmetic();
  }

  lemma PopDLines()
    ensures Program(["@SP", "M=M-1", "A=M", "D=M"]) == PopD()
  {
    DecodeRegisters();
    DecodeMoves();
    DecodeArithmetic();
  }

  lemma StoreIndirectLines()
    ensures Program(["@addr", "A=M", "M=D"]) == [At(Named("addr")), Set(A, Of(M)), Set(M, Of(D))]
  {
    DecodeAddr();
    DecodeMoves();
  }

  lemma SegmentFetchLines(segment: string, i: string)
    requires Vm.IsSegmentBase(segment) && IsDigits(i)
    ensures Program(["@" + i, "D=A", "@" + Show(Vm.SegmentCode(segment)), "A=M+D", "D=M"])
      == [At(Named(i)), Set(D, Of(A)), At(BaseRegister(segment)), Set(A, Sum(M, D)), Set(D, Of(M))]
  {
    DecodeIndex(i);
    DecodeSegment(segment);
    DecodeMoves();
    DecodeArithmetic();
  }

  lemma TempAddressLines(i: string)
    requires IsDigits(i)
    ensures Program(["@13", "D=A", "@" + i, "D=D+A"])
      == [At(Named("13")), Set(D, Of(A)), At(Named(i)), Set(D, Sum(D, A))]
  {
    DecodeThirteen();
    DecodeIndex(i);
    DecodeMoves();
    DecodeArithmetic();
  }

  // ---------------------------------------------------------------- push

  /** push constant i: the constant goes on top of the stack. */
  lemma PushConstantMeaning(symbols: map<string, nat>, i: string, fileName: string, m: Machine)
    requires IsDigits(i) && Sp(m) != 0
    ensures Vm.PushLines(Defined("constant"), Defined(i), fileName).Defined?
    ensures Effect(symbols, Program(Vm.PushLines(Defined("constant"), Defined(i), fileName).value), m).ram
      == m.ram[Sp(m) := Index(i)][0 := Wrap(Sp(m) + 1)]
  {
    var head := ["@" + i, "D=A"];
    var tail := ["@SP", "A=M", "M=D", "@SP", "M=M+1"];
    assert !Vm.IsSegmentBase("constant");
    assert Vm.PushLines(Defined("constant"), Defined(i), fileName).value == head + tail;
    ProgramAppend(head, tail);
    DecodeIndex(i);
    DecodeMoves();
    assert Program(head) == [At(Named(i)), Set(D, Of(A))];
    PushDLines();
    EffectAppend(symbols, Program(head), PushD(), m);
    var m1 := Effect(symbols, Program(head), m);
    assert Exec(symbols, Program(head), 0, 1, m) == m.(a := Index(i));
    assert m1 == m.(a := Index(i), d := Index(i));
    PushDMeaning(symbols, m1);
  }

  /** push local/argument/this/that i: the segment's i-th cell, counted from
      the base its register holds, goes on top of the stack. */
  lemma PushSegmentMeaning(symbols: map<string, nat>, segment: string, i: string, fileName: string, m: Machine)
    requires Vm.IsSegmentBase(segment) && IsDigits(i) && Sp(m) != 0
    ensures Vm.PushLines(Defined(segment), Defined(i), fileName).Defined?
    ensures Effect(symbols, Program(Vm.PushLines(Defined(segment), Defined(i), fileName).value), m).ram
      == m.ram[Sp(m) := Read(m, Wrap(Read(m, BaseCell(segment)) + Index(i)))][0 := Wrap(Sp(m) + 1)]
  {
    var head := ["@" + i, "D=A", "@" + Show(Vm.SegmentCode(segment)), "A=M+D", "D=M"];
    var tail := ["@SP", "A=M", "M=D", "@SP", "M=M+1"];
    assert Vm.PushLines(Defined(segment), Defined(i), fileName).value == head + tail;
    ProgramAppend(head, tail);
    var base := BaseRegister(segment);
    SegmentFetchLines(segment, i);
    PushDLines();
    EffectAppend(symbols, Program(head), PushD(), m);
    SegmentFetchMeaning(symbols, i, base, m);
    BaseCellLoaded(symbols, segment);
    PushDMeaning(symbols, Effect(symbols, Program(head), m));
  }

  /** push temp i: the cell 13 + i goes on top of the stack. */
  lemma PushTempMeaning(symbols: map<string, nat>, i: string, fileName: string, m: Machine)
    requires IsDigits(i) && Sp(m) != 0
    ensures Vm.PushLines(Defined("temp"), Defined(i), fileName).Defined?
    ensures Effect(symbols, Program(Vm.PushLines(Defined("temp"), Defined(i), fileName).value), m).ram
      == m.ram[Sp(m) := Read(m, Wrap(13 + Index(i)))][0 := Wrap(Sp(m) + 1)]
  {
    var address := ["@13", "D=A", "@" + i, "D=D+A"];
    var fetch := ["A=D", "D=M"];
    var tail := ["@SP", "A=M", "M=D", "@SP", "M=M+1"];
    assert !Vm.IsSegmentBase("temp");
    assert Vm.PushLines(Defined("temp"), Defined(i), fileName).value == address + fetch + tail;
    ProgramAppend(address + fetch, tail);
    ProgramAppend(address, fetch);
    var p1 := [At(Named("13")), Set(D, Of(A)), At(Named(i)), Set(D, Sum(D, A))];
    var p2 := [Set(A, Of(D)), Set(D, Of(M))];
    TempAddressLines(i);
    DecodeMoves();
    assert Program(fetch) == p2;
    PushDLines();
    EffectAppend(symbols, p1 + p2, PushD(), m);
    EffectAppend(symbols, p1, p2, m);
    TempAddressMeaning(symbols, i, m);
    var m1 := Effect(symbols, p1, m);
    assert Exec(symbols, p2, 0, 1, m1) == m1.(a := m1.d);
    PushDMeaning(symbols, Effect(symbols, p2, m1));
  }

  /** push static i: the assembler variable `<file>.i` goes on top of the stack. */
  lemma PushStaticMeaning(symbols: map<string, nat>, i: string, fileName: string, m: Machine)
    requires Sp(m) != 0
    ensures Vm.PushLines(Defined("static"), Defined(i), fileName).Defined?
    ensures Effect(symbols, Program(Vm.PushLines(Defined("static"), Defined(i), fileName).value), m).ram
      == m.ram[Sp(m) := Read(m, Variable(symbols, Vm.StaticName(fileName, Defined(i))))][0 := Wrap(Sp(m) + 1)]
  {
    var name := Vm.StaticName(fileName, Defined(i));
    var head := ["@" + name, "D=M"];
    var tail := ["@SP", "A=M", "M=D", "@SP", "M=M+1"];
    assert !Vm.IsSegmentBase("static");
    assert Vm.PushLines(Defined("static"), Defined(i), fileName).value == head + tail;
    ProgramAppend(head, tail);
    assert name[|fileName|] == '.';
    DecodeDotted(name);
    DecodeMoves();
    assert Program(head) == [At(Named(name)), Set(D, Of(M))];
    PushDLines();
    EffectAppend(symbols, Program(head), PushD(), m);
    FetchMeaning(symbols, Named(name), m);
    PushDMeaning(symbols, Effect(symbols, Program(head), m));
  }

  /** push pointer i: THAT (cell 4) when i is loosely non-zero, else THIS
      (cell 3), goes on top of the stack. */
  lemma PushPointerMeaning(symbols: map<string, nat>, i: string, fileName: string, m: Machine)
    requires Sp(m) != 0
    ensures Vm.PushLines(Defined("pointer"), Defined(i), fileName).Defined?
    ensures Effect(symbols, Program(Vm.PushLines(Defined("pointer"), Defined(i), fileName).value), m).ram
      == m.ram[Sp(m) := Read(m, PointerCell(Defined(i)))][0 := Wrap(Sp(m) + 1)]
  {
    var cell := Named(if LooseNotZero(Defined(i)) then "4" else "3");
    var head := [Vm.PointerAddress(Defined(i)), "D=M"];
    var tail := ["@SP", "A=M", "M=D", "@SP", "M=M+1"];
    assert !Vm.IsSegmentBase("pointer");
    assert Vm.PushLines(Defined("pointer"), Defined(i), fileName).value == head + tail;
    ProgramAppend(head, tail);
    DecodePointer(Defined(i));
    DecodeMoves();
    assert Program(head) == [At(cell), Set(D, Of(M))];
    PushDLines();
    EffectAppend(symbols, Program(head), PushD(), m);
    FetchMeaning(symbols, cell, m);
    PushDMeaning(symbols, Effect(symbols, Program(head), m));
  }

  // ----------------------------------------------------------------- pop

  /** The lines every pop through `addr` ends with. */
  function PopIndirect(): seq<Instr>
  {
    [At(Named("addr")), Set(M, Of(D))] + PopD() + [At(Named("addr")), Set(A, Of(M)), Set(M, Of(D))]
  }

  lemma PopIndirectLines()
    ensures Program(["@addr", "M=D", "@SP", "M=M-1", "A=M", "D=M", "@addr", "A=M", "M=D"]) == PopIndirect()
  {
    DecodeAddr();
    DecodeRegisters();
    DecodeMoves();
    DecodeArithmetic();
  }

  /** With the target address in D: the address is kept in `addr`, SP
      moves down, and the old top goes to the target. */
  lemma PopIndirectMeaning(symbols: map<string, nat>, m: Machine)
    requires var av := Variable(symbols, "addr"); var top := Wrap(Sp(m) - 1);
      av != 0 && top != 0 && top != av
    ensures var av := Variable(symbols, "addr"); var top := Wrap(Sp(m) - 1);
      Effect(symbols, PopIndirect(), m).ram == m.ram[av := m.d][0 := top][m.d := Read(m, top)]
  {
    var av := Variable(symbols, "addr");
    var store := [At(Named("addr")), Set(M, Of(D))];
    var indirect := [At(Named("addr")), Set(A, Of(M)), Set(M, Of(D))];
    EffectAppend(symbols, store + PopD(), indirect, m);
    EffectAppend(symbols, store, PopD(), m);
    StoreMeaning(symbols, Named("addr"), m);
    var m1 := Effect(symbols, store, m);
    assert Sp(m1) == Sp(m);
    PopDMeaning(symbols, m1);
    var m2 := Effect(symbols, PopD(), m1);
    assert Read(m2, av) == m.d;
    StoreIndirectMeaning(symbols, m2);
  }

  /** With the target address in `s`: SP moves down, and the old top goes to
      the target. */
  lemma PopStoreMeaning(symbols: map<string, nat>, s: Symbol, m: Machine)
    requires Wrap(Sp(m) - 1) != 0
    ensures var top := Wrap(Sp(m) - 1);
      Effect(symbols, PopD() + [At(s), Set(M, Of(D))], m).ram == m.ram[0 := top][Load(symbols, s) := Read(m, top)]
  {
    EffectAppend(symbols, PopD(), [At(s), Set(M, Of(D))], m);
    PopDMeaning(symbols, m);
    StoreMeaning(symbols, s, Effect(symbols, PopD(), m));
  }

  lemma SegmentAddressLines(segment: string, i: string)
    requires Vm.IsSegmentBase(segment) && IsDigits(i)
    ensures Program(["@" + i, "D=A", "@" + Show(Vm.SegmentCode(segment)), "D=D+M"])
      == [At(Named(i)), Set(D, Of(A)), At(BaseRegister(segment)), Set(D, Sum(D, M))]
  {
    DecodeIndex(i);
    DecodeSegment(segment);
    DecodeMoves();
    DecodeArithmetic();
  }

  /** pop local/argument/this/that i: the address of the segment's i-th cell
      is kept in `addr`, SP moves down and the old top goes to that cell. */
  lemma PopSegmentMeaning(symbols: map<string, nat>, segment: string, i: string, fileName: string, m: Machine)
    requires Vm.IsSegmentBase(segment) && IsDigits(i)
    requires var av := Variable(symbols, "addr"); var top := Wrap(Sp(m) - 1);
      av != 0 && top != 0 && top != av
    ensures Vm.PopLines(Defined(segment), Defined(i), fileName).Defined?
    ensures var t := Wrap(Index(i) + Read(m, BaseCell(segment))); var top := Wrap(Sp(m) - 1);
      Effect(symbols, Program(Vm.PopLines(Defined(segment), Defined(i), fileName).value), m).ram
      == m.ram[Variable(symbols, "addr") := t][0 := top][t := Read(m, top)]
  {
    var head := ["@" + i, "D=A", "@" + Show(Vm.SegmentCode(segment)), "D=D+M"];
    var tail := ["@addr", "M=D", "@SP", "M=M-1", "A=M", "D=M", "@addr", "A=M", "M=D"];
    assert Vm.PopLines(Defined(segment), Defined(i), fileName).value == head + tail;
    ProgramAppend(head, tail);
    SegmentAddressLines(segment, i);
    PopIndirectLines();
    var base := BaseRegister(segment);
    EffectAppend(symbols, Program(head), PopIndirect(), m);
    SegmentAddressMeaning(symbols, i, base, m);
    BaseCellLoaded(symbols, segment);
    PopIndirectMeaning(symbols, Effect(symbols, Program(head), m));
  }

  /** pop temp i: as a segment pop, into the cell 13 + i. */
  lemma PopTempMeaning(symbols: map<string, nat>, i: string, fileName: string, m: Machine)
    requires IsDigits(i)
    requires var av := Variable(symbols, "addr"); var top := Wrap(Sp(m) - 1);
      av != 0 && top != 0 && top != av
    ensures Vm.PopLines(Defined("temp"), Defined(i), fileName).Defined?
    ensures var t := Wrap(13 + Index(i)); var top := Wrap(Sp(m) - 1);
      Effect(symbols, Program(Vm.PopLines(Defined("temp"), Defined(i), fileName).value), m).ram
      == m.ram[Variable(symbols, "addr") := t][0 := top][t := Read(m, top)]
  {
    var head := ["@13", "D=A", "@" + i, "D=D+A"];
    var tail := ["@addr", "M=D", "@SP", "M=M-1", "A=M", "D=M", "@addr", "A=M", "M=D"];
    assert !Vm.IsSegmentBase("temp");
    assert Vm.PopLines(Defined("temp"), Defined(i), fileName).value == head + tail;
    ProgramAppend(head, tail);
    var p1 := [At(Named("13")), Set(D, Of(A)), At(Named(i)), Set(D, Sum(D, A))];
    TempAddressLines(i);
    PopIndirectLines();
    EffectAppend(symbols, p1, PopIndirect(), m);
    TempAddressMeaning(symbols, i, m);
    PopIndirectMeaning(symbols, Effect(symbols, p1, m));
  }

  /** pop static i: SP moves down and the old top goes to the assembler
      variable `<file>.i`. */
  lemma PopStaticMeaning(symbols: map<string, nat>, i: string, fileName: string, m: Machine)
    requires Wrap(Sp(m) - 1) != 0
    ensures Vm.PopLines(Defined("static"), Defined(i), fileName).Defined?
    ensures var top := Wrap(Sp(m) - 1);
      Effect(symbols, Program(Vm.PopLines(Defined("static"), Defined(i), fileName).value), m).ram
      == m.ram[0 := top][Variable(symbols, Vm.StaticName(fileName, Defined(i))) := Read(m, top)]
  {
    var name := Vm.StaticName(fileName, Defined(i));
    var head := ["@SP", "M=M-1", "A=M", "D=M"];
    var tail := ["@" + name, "M=D"];
    assert !Vm.IsSegmentBase("static");
    assert Vm.PopLines(Defined("static"), Defined(i), fileName).value == head + tail;
    ProgramAppend(head, tail);
    PopDLines();
    assert name[|fileName|] == '.';
    DecodeDotted(name);
    DecodeMoves();
    assert Program(tail) == [At(Named(name)), Set(M, Of(D))];
    PopStoreMeaning(symbols, Named(name), m);
  }

  /** pop pointer i: SP moves down and the old top goes to THAT (cell 4)
      when i is loosely non-zero, else to THIS (cell 3). */
  lemma PopPointerMeaning(symbols: map<string, nat>, i: string, fileName: string, m: Machine)
    requires Wrap(Sp(m) - 1) != 0
    ensures Vm.PopLines(Defined("pointer"), Defined(i), fileName).Defined?
    ensures var top := Wrap(Sp(m) - 1);
      Effect(symbols, Program(Vm.PopLines(Defined("pointer"), Defined(i), fileName).value), m).ram
      == m.ram[0 := top][PointerCell(Defined(i)) := Read(m, top)]
  {
    var cell := Named(if LooseNotZero(Defined(i)) then "4" else "3");
    var head := ["@SP", "M=M-1", "A=M", "D=M"];
    var tail := [Vm.PointerAddress(Defined(i)), "M=D"];
    assert !Vm.IsSegmentBase("pointer");
    assert Vm.PopLines(Defined("pointer"), Defined(i), fileName).value == head + tail;
    ProgramAppend(head, tail);
    PopDLines();
    DecodePointer(Defined(i));
    DecodeMoves();
    assert Program(tail) == [At(cell), Set(M, Of(D))];
    PopStoreMeaning(symbols, cell, m);
  }

  // ------------------------------------------------------------- compute

  /** add, sub, and, or on the two top words x (below) and y (on top). */
  function BinaryValue(op: string, x: int, y: int): int
  {
    match op
    case "add" => Wrap(x + y)
    case "sub" => Wrap(x - y)
    case "and" => Bitwise(Wrap(x), Wrap(y), true, 16)
    case _ => Bitwise(Wrap(x), Wrap(y), false, 16)
  }

  /** neg and not on the top word. */
  function UnaryValue(op: string, x: int): int
  {
    if op == "neg" then Wrap(-x) else Wrap(Word - 1 - x)
  }

  function BinaryComp(op: string): Comp
  {
    match op
    case "add" => Sum(M, D)
    case "sub" => Diff(M, D)
    case "and" => And(M, D)
    case _ => Or(M, D)
  }

  function UnaryComp(op: string): Comp
  {
    if op == "neg" then Neg(M) else Not(M)
  }

  lemma BinaryOperatorLine(op: string)
    requires Vm.IsBinary(op)
    ensures Decode("M=M" + Show(Vm.OpCode(op)) + "D") == Set(M, BinaryComp(op))
  {
    DecodeOperators();
    match op
    case "add" => assert "M=M" + Show(Vm.OpCode(op)) + "D" == "M=M+D";
    case "sub" => assert "M=M" + Show(Vm.OpCode(op)) + "D" == "M=M-D";
    case "and" => assert "M=M" + Show(Vm.OpCode(op)) + "D" == "M=M&D";
    case "or" => assert "M=M" + Show(Vm.OpCode(op)) + "D" == "M=M|D";
  }

  lemma UnaryOperatorLine(op: string)
    requires Vm.IsUnary(op)
    ensures Decode("M=" + Show(Vm.OpCode(op)) + "M") == Set(M, UnaryComp(op))
  {
    DecodeOperators();
    if op == "neg" {
      assert "M=" + Show(Vm.OpCode(op)) + "M" == "M=-M";
    } else {
      assert "M=" + Show(Vm.OpCode(op)) + "M" == "M=!M";
    }
  }

  lemma EvalBinary(op: string, m: Machine)
    ensures Eval(BinaryComp(op), m) == BinaryValue(op, Read(m, m.a), m.d)
  {
    match op
    case "add" =>
    case "sub" =>
    case "and" =>
    case _ =>
  }

  lemma EvalUnary(op: string, m: Machine)
    ensures Eval(UnaryComp(op), m) == UnaryValue(op, Read(m, m.a))
  {
  }

  lemma BinaryLines(op: string, labelId: int)
    requires Vm.IsBinary(op)
    ensures Vm.ComputeLines(Defined(op), labelId).Defined?
    ensures Program(Vm.ComputeLines(Defined(op), labelId).value) == PopD() + [Set(A, Dec(A)), Set(M, BinaryComp(op))]
  {
    var head := ["@SP", "M=M-1", "A=M", "D=M"];
    var tail := ["A=A-1", "M=M" + Show(Vm.OpCode(op)) + "D"];
    assert Vm.ComputeLines(Defined(op), labelId).value == head + tail;
    ProgramAppend(head, tail);
    PopDLines();
    BinaryOperatorLine(op);
    DecodeArithmetic();
  }

  /** The binary template, decoded: the top goes to D, A to the word below,
      and the operation writes it. */
  lemma BinaryProgramMeaning(symbols: map<string, nat>, op: string, m: Machine)
    requires Wrap(Sp(m) - 1) != 0 && Wrap(Wrap(Sp(m) - 1) - 1) != 0
    ensures var top := Wrap(Sp(m) - 1); var below := Wrap(top - 1);
      Effect(symbols, PopD() + [Set(A, Dec(A)), Set(M, BinaryComp(op))], m).ram
      == m.ram[0 := top][below := BinaryValue(op, Read(m, below), Read(m, top))]
  {
    var p2 := [Set(A, Dec(A)), Set(M, BinaryComp(op))];
    EffectAppend(symbols, PopD(), p2, m);
    PopDMeaning(symbols, m);
    var m1 := Effect(symbols, PopD(), m);
    var m2 := m1.(a := Wrap(m1.a - 1));
    assert Exec(symbols, p2, 0, 1, m1) == m2;
    assert Read(m2, m2.a) == Read(m, m2.a);
    EvalBinary(op, m2);
  }

  /** add/sub/and/or: SP moves down and the word below the old top becomes
      the operation applied to it and the old top. */
  lemma BinaryMeaning(symbols: map<string, nat>, op: string, labelId: int, m: Machine)
    requires Vm.IsBinary(op)
    requires Wrap(Sp(m) - 1) != 0 && Wrap(Wrap(Sp(m) - 1) - 1) != 0
    ensures Vm.ComputeLines(Defined(op), labelId).Defined?
    ensures var top := Wrap(Sp(m) - 1); var below := Wrap(top - 1);
      Effect(symbols, Program(Vm.ComputeLines(Defined(op), labelId).value), m).ram
      == m.ram[0 := top][below := BinaryValue(op, Read(m, below), Read(m, top))]
  {
    BinaryLines(op, labelId);
    BinaryProgramMeaning(symbols, op, m);
  }

  lemma UnaryLines(op: string, labelId: int)
    requires Vm.IsUnary(op)
    ensures Vm.ComputeLines(Defined(op), labelId).Defined?
    ensures Program(Vm.ComputeLines(Defined(op), labelId).value)
      == [At(SP), Set(M, Dec(M)), Set(A, Of(M)), Set(M, UnaryComp(op)), At(SP), Set(M, Inc(M))]
  {
    var lines := ["@SP", "M=M-1", "A=M", "M=" + Show(Vm.OpCode(op)) + "M", "@SP", "M=M+1"];
    assert Vm.ComputeLines(Defined(op), labelId).value == lines;
    UnaryOperatorLine(op);
    DecodeRegisters();
    DecodeMoves();
    DecodeArithmetic();
  }

  /** SP moved down and up again is where it began. */
  lemma DownUp(sp: int)
    requires 0 < sp < Word
    ensures Wrap(Wrap(sp - 1) + 1) == sp
  {
  }

  /** The unary template, decoded. */
  lemma UnaryProgramMeaning(symbols: map<string, nat>, op: string, m: Machine)
    requires Wrap(Sp(m) - 1) != 0
    ensures var top := Wrap(Sp(m) - 1);
      Effect(symbols, [At(SP), Set(M, Dec(M)), Set(A, Of(M)), Set(M, UnaryComp(op)), At(SP), Set(M, Inc(M))], m).ram
      == m.ram[top := UnaryValue(op, Read(m, top))][0 := Wrap(top + 1)]
  {
    var prog := [At(SP), Set(M, Dec(M)), Set(A, Of(M)), Set(M, UnaryComp(op)), At(SP), Set(M, Inc(M))];
    var top := Wrap(Sp(m) - 1);
    var v := UnaryValue(op, Read(m, top));
    var m1 := m.(a := 0);
    var m2 := m1.(ram := m1.ram[0 := top]);
    var m3 := m2.(a := top);
    EvalUnary(op, m3);
    var m4 := m3.(ram := m3.ram[top := v]);
    var m5 := m4.(a := 0);
    var m6 := m5.(ram := m5.ram[0 := Wrap(top + 1)]);
    assert Exec(symbols, prog, 0, 1, m) == m1;
    assert Exec(symbols, prog, 0, 2, m) == m2;
    assert Exec(symbols, prog, 0, 3, m) == m3;
    assert Exec(symbols, prog, 0, 4, m) == m4;
    assert Exec(symbols, prog, 0, 5, m) == m5;
    assert Exec(symbols, prog, 0, 6, m) == m6;
    assert m6.ram == m.ram[top := v][0 := Wrap(top + 1)];
  }

  /** neg/not: the top word is replaced by the operation applied to it, and
      SP ends where it began. */
  lemma UnaryMeaning(symbols: map<string, nat>, op: string, labelId: int, m: Machine)
    requires Vm.IsUnary(op)
    requires Wrap(Sp(m) - 1) != 0
    ensures Vm.ComputeLines(Defined(op), labelId).Defined?
    ensures var top := Wrap(Sp(m) - 1);
      var r := Effect(symbols, Program(Vm.ComputeLines(Defined(op), labelId).value), m);
      r.ram == m.ram[top := UnaryValue(op, Read(m, top))][0 := Wrap(top + 1)]
      && (0 < Sp(m) < Word ==> Sp(r) == Sp(m))
  {
    UnaryLines(op, labelId);
    UnaryProgramMeaning(symbols, op, m);
    if 0 < Sp(m) < Word {
      DownUp(Sp(m));
    }
  }

  /** eq, gt, lt as the template decides them: on the sign of the 16-bit
      difference of x (below) and y (on top). */
  predicate Compares(op: string, x: int, y: int)
  {
    var v := Signed(Wrap(x - y));
    match op
    case "eq" => v == 0
    case "gt" => v > 0
    case _ => v < 0
  }

  /** true is -1 (all ones), false is 0. */
  function Truth(b: bool): int
  {
    if b then Word - 1 else 0
  }

  function CondOf(op: string): Cond
  {
    match op
    case "eq" => JEQ
    case "gt" => JGT
    case _ => JLT
  }

  lemma CondMeaning(op: string, x: int, y: int)
    ensures Taken(CondOf(op), Wrap(x - y)) == Compares(op, x, y)
  {
  }

  /** The comparison template, decoded, with its two labels: the
      difference, the test, the false branch, the jump over the true branch,
      and the true branch. */
  function CompareProgram(op: string, id: string): seq<Instr>
  {
    PopD() + (CompareDiff(id) + [Jump(Of(D), CondOf(op))]) + (CompareFalse(id) + [Jump(Zero, JMP)]) + CompareTrue(id)
  }

  function CompareDiff(id: string): seq<Instr>
  {
    [Set(A, Dec(A)), Set(M, Diff(M, D)), Set(D, Of(M)), At(Named("jump_true_" + id))]
  }

  function CompareFalse(id: string): seq<Instr>
  {
    [At(SP), Set(A, Of(M)), Set(A, Dec(A)), Set(M, Zero), At(Named("continue_" + id))]
  }

  function CompareTrue(id: string): seq<Instr>
  {
    [Label("jump_true_" + id), At(SP), Set(A, Of(M)), Set(A, Dec(A)), Set(M, MinusOne), Label("continue_" + id)]
  }

  /** The labels a comparison generates start with a lower-case letter, so
      they name no register. */
  lemma DecodeJumpTrue(id: string)
    ensures Decode("@jump_true_" + id) == At(Named("jump_true_" + id))
    ensures Decode("(jump_true_" + id + ")") == Label("jump_true_" + id)
  {
    var name := "jump_true_" + id;
    var at := "@jump_true_" + id;
    assert at[0] == '@' && at[1..] == name;
    NamedSymbol(name);
    var line := "(jump_true_" + id + ")";
    assert line[0] == '(' && line[|line| - 1] == ')' && line[1..|line| - 1] == name;
  }

  lemma DecodeContinue(id: string)
    ensures Decode("@continue_" + id) == At(Named("continue_" + id))
    ensures Decode("(continue_" + id + ")") == Label("continue_" + id)
  {
    var name := "continue_" + id;
    var at := "@continue_" + id;
    assert at[0] == '@' && at[1..] == name;
    NamedSymbol(name);
    var line := "(continue_" + id + ")";
    assert line[0] == '(' && line[|line| - 1] == ')' && line[1..|line| - 1] == name;
  }

  lemma CompareJumpLine(op: string)
    requires Vm.IsComparison(op)
    ensures Decode("D;" + Show(Vm.JumpCode(op))) == Jump(Of(D), CondOf(op))
  {
    DecodeJumps();
    match op
    case "eq" => assert "D;" + Show(Vm.JumpCode(op)) == "D;JEQ";
    case "gt" => assert "D;" + Show(Vm.JumpCode(op)) == "D;JGT";
    case "lt" => assert "D;" + Show(Vm.JumpCode(op)) == "D;JLT";
  }

  lemma CompareTestLines(op: string, id: string)
    requires Vm.IsComparison(op)
    ensures Program(["A=A-1", "M=M-D", "D=M", "@jump_true_" + id, "D;" + Show(Vm.JumpCode(op))])
      == CompareDiff(id) + [Jump(Of(D), CondOf(op))]
  {
    DecodeMoves();
    DecodeArithmetic();
    DecodeOperators();
    DecodeJumpTrue(id);
    CompareJumpLine(op);
  }

  lemma CompareFalseLines(id: string)
    ensures Program(["@SP", "A=M", "A=A-1", "M=0", "@continue_" + id, "0;JMP"])
      == CompareFalse(id) + [Jump(Zero, JMP)]
  {
    DecodeRegisters();
    DecodeMoves();
    DecodeArithmetic();
    DecodeJumps();
    DecodeContinue(id);
  }

  lemma CompareTrueLines(id: string)
    ensures Program(["(jump_true_" + id + ")", "@SP", "A=M", "A=A-1", "M=-1", "(continue_" + id + ")"])
      == CompareTrue(id)
  {
    DecodeRegisters();
    DecodeMoves();
    DecodeArithmetic();
    DecodeJumpTrue(id);
    DecodeContinue(id);
  }

  /** The comparison template in the four parts decoded above. */
  lemma ComparisonParts(op: string, n: int)
    ensures var id := Vm.IntToString(n);
      Vm.ComparisonLines(op, n)
      == ["@SP", "M=M-1", "A=M", "D=M"]
       + ["A=A-1", "M=M-D", "D=M", "@jump_true_" + id, "D;" + Show(Vm.JumpCode(op))]
       + ["@SP", "A=M", "A=A-1", "M=0", "@continue_" + id, "0;JMP"]
       + ["(jump_true_" + id + ")", "@SP", "A=M", "A=A-1", "M=-1", "(continue_" + id + ")"]
  {
  }

  lemma ComparisonLinesDecoded(op: string, n: int)
    requires Vm.IsComparison(op)
    ensures Program(Vm.ComparisonLines(op, n)) == CompareProgram(op, Vm.IntToString(n))
  {
    var id := Vm.IntToString(n);
    var l1 := ["@SP", "M=M-1", "A=M", "D=M"];
    var l2 := ["A=A-1", "M=M-D", "D=M", "@jump_true_" + id, "D;" + Show(Vm.JumpCode(op))];
    var l3 := ["@SP", "A=M", "A=A-1", "M=0", "@continue_" + id, "0;JMP"];
    var l4 := ["(jump_true_" + id + ")", "@SP", "A=M", "A=A-1", "M=-1", "(continue_" + id + ")"];
    ComparisonParts(op, n);
    ProgramAppend(l1 + l2 + l3, l4);
    ProgramAppend(l1 + l2, l3);
    ProgramAppend(l1, l2);
    PopDLines();
    CompareTestLines(op, id);
    CompareFalseLines(id);
    CompareTrueLines(id);
  }

  /** The first eight lines: the difference of the two top words is
      written below the top and kept in D, and A holds `jump_true`. */
  lemma CompareDiffMeaning(symbols: map<string, nat>, id: string, m: Machine, top: int, below: int)
    requires top == Wrap(Sp(m) - 1) && below == Wrap(top - 1) && top != 0 && below != 0
    ensures var r := Effect(symbols, PopD() + CompareDiff(id), m);
      r.ram == m.ram[0 := top][below := Wrap(Read(m, below) - Read(m, top))]
      && r.d == Wrap(Read(m, below) - Read(m, top)) && r.a == Variable(symbols, "jump_true_" + id)
  {
    var prog := CompareDiff(id);
    EffectAppend(symbols, PopD(), prog, m);
    PopDMeaning(symbols, m);
    var m4 := Effect(symbols, PopD(), m);
    var top := Wrap(Sp(m) - 1);
    var below := Wrap(top - 1);
    var v := Wrap(Read(m, below) - Read(m, top));
    var m5 := m4.(a := below);
    var m6 := m5.(ram := m5.ram[below := v]);
    var m7 := m6.(d := v);
    var m8 := m7.(a := Variable(symbols, "jump_true_" + id));
    assert Exec(symbols, prog, 0, 1, m4) == m5;
    assert Exec(symbols, prog, 0, 2, m4) == m6;
    assert Exec(symbols, prog, 0, 3, m4) == m7;
    assert Exec(symbols, prog, 0, 4, m4) == m8;
  }

  /** The false branch: the word below the top becomes 0, and A holds
      `continue`. */
  lemma CompareFalseMeaning(symbols: map<string, nat>, id: string, m: Machine)
    ensures var below := Wrap(Read(m, 0) - 1);
      var r := Effect(symbols, CompareFalse(id), m);
      r.ram == m.ram[below := 0] && r.a == Variable(symbols, "continue_" + id)
  {
    var prog := CompareFalse(id);
    var below := Wrap(Read(m, 0) - 1);
    var m1 := m.(a := 0);
    var m2 := m1.(a := Read(m, 0));
    var m3 := m2.(a := below);
    var m4 := m3.(ram := m3.ram[below := 0]);
    var m5 := m4.(a := Variable(symbols, "continue_" + id));
    assert Exec(symbols, prog, 0, 1, m) == m1;
    assert Exec(symbols, prog, 0, 2, m) == m2;
    assert Exec(symbols, prog, 0, 3, m) == m3;
    assert Exec(symbols, prog, 0, 4, m) == m4;
    assert Exec(symbols, prog, 0, 5, m) == m5;
  }

  /** The true branch: the word below the top becomes -1. */
  lemma CompareTrueMeaning(symbols: map<string, nat>, id: string, m: Machine)
    ensures var below := Wrap(Read(m, 0) - 1);
      Effect(symbols, CompareTrue(id), m).ram == m.ram[below := Word - 1]
  {
    var prog := CompareTrue(id);
    var below := Wrap(Read(m, 0) - 1);
    var m1 := m.(a := 0);
    var m2 := m1.(a := Read(m, 0));
    var m3 := m2.(a := below);
    var m4 := m3.(ram := m3.ram[below := Word - 1]);
    assert Exec(symbols, prog, 0, 1, m) == m;
    assert Exec(symbols, prog, 0, 2, m) == m1;
    assert Exec(symbols, prog, 0, 3, m) == m2;
    assert Exec(symbols, prog, 0, 4, m) == m3;
    assert Exec(symbols, prog, 0, 5, m) == m4;
    assert Exec(symbols, prog, 0, 6, m) == m4;
  }

  /** Where the parts sit in the comparison program. */
  lemma CompareLayout(op: string, id: string)
    ensures var prog := CompareProgram(op, id);
      |prog| == 21 && prog[..8] == PopD() + CompareDiff(id) && prog[8] == Jump(Of(D), CondOf(op))
      && prog[9..14] == CompareFalse(id) && prog[14] == Jump(Zero, JMP)
      && prog[15..21] == CompareTrue(id) && prog[20] == Label("continue_" + id)
      && NoJumps(prog, 0, 8) && NoJumps(prog, 9, 14) && NoJumps(prog, 15, 21)
  {
  }

  /** Running the comparison reaches the test with the difference computed. */
  lemma CompareHeadRun(symbols: map<string, nat>, op: string, id: string, m: Machine)
    ensures Run(symbols, CompareProgram(op, id), 0, m, 16)
      == Run(symbols, CompareProgram(op, id), 8, Effect(symbols, PopD() + CompareDiff(id), m), 8)
  {
    var prog := CompareProgram(op, id);
    CompareLayout(op, id);
    RunStraight(symbols, prog, 0, 8, m, 8);
    ExecSlice(symbols, prog, 0, 8, m);
    assert prog[0..8] == prog[..8];
  }

  /** From the true branch the comparison runs to its end. */
  lemma CompareTrueRun(symbols: map<string, nat>, op: string, id: string, m: Machine)
    ensures Run(symbols, CompareProgram(op, id), 15, m, 7) == (21, Effect(symbols, CompareTrue(id), m))
  {
    var prog := CompareProgram(op, id);
    CompareLayout(op, id);
    RunStraight(symbols, prog, 15, 6, m, 1);
    ExecSlice(symbols, prog, 15, 21, m);
    RunEnd(symbols, prog, 21, Exec(symbols, prog, 15, 21, m), 1);
  }

  /** From the false branch the comparison jumps to `continue`, its last
      line, and ends. */
  lemma CompareFalseRun(symbols: map<string, nat>, op: string, id: string, m: Machine)
    requires Variable(symbols, "continue_" + id) == 20
    ensures Run(symbols, CompareProgram(op, id), 9, m, 7) == (21, Effect(symbols, CompareFalse(id), m))
  {
    var prog := CompareProgram(op, id);
    CompareLayout(op, id);
    RunStraight(symbols, prog, 9, 5, m, 2);
    ExecSlice(symbols, prog, 9, 14, m);
    CompareFalseMeaning(symbols, id, m);
    var m14 := Exec(symbols, prog, 9, 14, m);
    RunJump(symbols, prog, 14, m14, 1);
    RunStraight(symbols, prog, 20, 1, m14, 0);
    assert Exec(symbols, prog, 20, 21, m14) == m14;
    RunEnd(symbols, prog, 21, m14, 0);
  }

  /** The test jumps to `jump_true` (line 15) when the comparison holds of
      the difference in D, and falls through to line 9 otherwise. */
  lemma CompareTestRun(symbols: map<string, nat>, op: string, id: string, m: Machine)
    requires m.a == 15
    ensures Run(symbols, CompareProgram(op, id), 8, m, 8)
      == Run(symbols, CompareProgram(op, id), if Taken(CondOf(op), m.d) then 15 else 9, m, 7)
  {
    var prog := CompareProgram(op, id);
    assert |prog| == 21 && prog[8] == Jump(Of(D), CondOf(op));
    RunJump(symbols, prog, 8, m, 7);
  }

  /** The comparison's path: the difference, the test, and one of the two
      branches. */
  lemma CompareRunPath(symbols: map<string, nat>, op: string, id: string, m: Machine)
    requires Variable(symbols, "jump_true_" + id) == 15 && Variable(symbols, "continue_" + id) == 20
    ensures var m8 := Effect(symbols, PopD() + CompareDiff(id), m);
      Run(symbols, CompareProgram(op, id), 0, m, 16)
      == (21, if Taken(CondOf(op), m8.d) then Effect(symbols, CompareTrue(id), m8) else Effect(symbols, CompareFalse(id), m8))
  {
    CompareHeadRun(symbols, op, id, m);
    var m8 := Effect(symbols, PopD() + CompareDiff(id), m);
    EffectAppend(symbols, PopD(), CompareDiff(id), m);
    CompareDiffA(symbols, id, Effect(symbols, PopD(), m));
    CompareTestRun(symbols, op, id, m8);
    if Taken(CondOf(op), m8.d) {
      CompareTrueRun(symbols, op, id, m8);
    } else {
      CompareFalseRun(symbols, op, id, m8);
    }
  }

  lemma CompareDiffA(symbols: map<string, nat>, id: string, m: Machine)
    ensures Effect(symbols, CompareDiff(id), m).a == Variable(symbols, "jump_true_" + id)
  {
    var prog := CompareDiff(id);
    assert Exec(symbols, prog, 0, 4, m) == Step(symbols, prog[3], Exec(symbols, prog, 0, 3, m));
  }

  /** A cell written twice holds the second value. */
  lemma Overwrite(ram: map<int, int>, k: int, u: int, v: int)
    ensures ram[k := u][k := v] == ram[k := v]
  {
  }

  /** Either branch writes the truth value below the top. */
  lemma CompareFinal(symbols: map<string, nat>, id: string, m: Machine, b: bool, below: int)
    requires below == Wrap(Read(m, 0) - 1)
    ensures var fin := if b then Effect(symbols, CompareTrue(id), m) else Effect(symbols, CompareFalse(id), m);
      fin.ram == m.ram[below := Truth(b)]
  {
    if b {
      CompareTrueMeaning(symbols, id, m);
    } else {
      CompareFalseMeaning(symbols, id, m);
    }
  }

  /** The decoded comparison, run with its labels bound to the positions of
      their lines: it ends past its last line, with SP one lower and the
      word below the old top replaced by the comparison's truth value. */
  lemma CompareRunMeaning(symbols: map<string, nat>, op: string, id: string, m: Machine, top: int, below: int)
    requires Variable(symbols, "jump_true_" + id) == 15 && Variable(symbols, "continue_" + id) == 20
    requires top == Wrap(Sp(m) - 1) && below == Wrap(top - 1) && top != 0 && below != 0
    ensures var r := Run(symbols, CompareProgram(op, id), 0, m, 16);
      r.0 == 21 && r.1.ram == m.ram[0 := top][below := Truth(Compares(op, Read(m, below), Read(m, top)))]
  {
    CompareRunPath(symbols, op, id, m);
    CompareOutcome(symbols, op, id, m, top, below);
  }

  /** Whichever branch the test takes, memory ends as the comparison says. */
  lemma CompareOutcome(symbols: map<string, nat>, op: string, id: string, m: Machine, top: int, below: int)
    requires top == Wrap(Sp(m) - 1) && below == Wrap(top - 1) && top != 0 && below != 0
    ensures var m8 := Effect(symbols, PopD() + CompareDiff(id), m);
      var fin := if Taken(CondOf(op), m8.d) then Effect(symbols, CompareTrue(id), m8) else Effect(symbols, CompareFalse(id), m8);
      fin.ram == m.ram[0 := top][below := Truth(Compares(op, Read(m, below), Read(m, top)))]
  {
    var x := Read(m, below);
    var y := Read(m, top);
    CompareDiffMeaning(symbols, id, m, top, below);
    var m8 := Effect(symbols, PopD() + CompareDiff(id), m);
    CondMeaning(op, x, y);
    var b := Compares(op, x, y);
    ReadAfter(m8, m.ram, top, below, Wrap(x - y));
    CompareFinal(symbols, id, m8, b, below);
    Overwrite(m.ram[0 := top], below, Wrap(x - y), Truth(b));
  }

  /** SP as written, when the cell written after it is another. */
  lemma ReadAfter(m: Machine, ram: map<int, int>, top: int, below: int, v: int)
    requires m.ram == ram[0 := top][below := v] && below != 0
    ensures Read(m, 0) == top
  {
  }

  /** eq/gt/lt with label number n, the labels bound to their lines: SP
      moves down and the word below the old top becomes -1 when the
      comparison holds and 0 otherwise.  The snippet is run on its own,
      starting at address 0, so `jump_true_n` is instruction 15 and
      `continue_n` is instruction 20 (the assembler's first pass gives a
      label the address of the next instruction).  The snippet's meaning is
      stated for that placement only. */
  lemma ComparisonMeaning(symbols: map<string, nat>, op: string, labelId: int, m: Machine)
    requires Vm.IsComparison(op)
    requires Variable(symbols, "jump_true_" + Vm.IntToString(labelId)) == 15
    requires Variable(symbols, "continue_" + Vm.IntToString(labelId)) == 20
    requires Wrap(Sp(m) - 1) != 0 && Wrap(Wrap(Sp(m) - 1) - 1) != 0
    ensures Vm.ComputeLines(Defined(op), labelId).Defined?
    ensures var top := Wrap(Sp(m) - 1); var below := Wrap(top - 1);
      var r := Run(symbols, Program(Vm.ComputeLines(Defined(op), labelId).value), 0, m, 16);
      r.0 == 21 && r.1.ram == m.ram[0 := top][below := Truth(Compares(op, Read(m, below), Read(m, top)))]
  {
    assert Vm.ComputeLines(Defined(op), labelId) == Defined(Vm.ComparisonLines(op, labelId));
    ComparisonLinesDecoded(op, labelId);
    var top := Wrap(Sp(m) - 1);
    CompareRunMeaning(symbols, op, Vm.IntToString(labelId), m, top, Wrap(top - 1));
  }

  /** Without overflow of the difference, eq, gt and lt are the comparisons
      of the two words as signed numbers. */
  lemma ComparesWithoutOverflow(op: string, x: int, y: int)
    requires 0 <= x < Word && 0 <= y < Word
    requires -32768 <= Signed(x) - Signed(y) < 32768
    ensures op == "eq" ==> (Compares(op, x, y) <==> x == y)
    ensures op == "gt" ==> (Compares(op, x, y) <==> Signed(x) > Signed(y))
    ensures op == "lt" ==> (Compares(op, x, y) <==> Signed(x) < Signed(y))
  {
    var d := Signed(x) - Signed(y);
    assert x - y == d || x - y == d + Word || x - y == d - Word;
    assert Wrap(x - y) == if d >= 0 then d else d + Word;
  }

  // -------------------------------------------------------------- branch

  /** `@name` reads the assembler symbol `name` unless it is a register's. */
  lemma DecodeTarget(name: string)
    requires name != "" && SymbolOf(name) == Named(name)
    ensures Decode("@" + name) == At(Named(name))
  {
    DecodeAt(name);
  }

  lemma IfGotoLines(name: string)
    requires name != "" && SymbolOf(name) == Named(name)
    ensures Vm.BranchLines(Defined("if-goto"), Defined(name)).Defined?
    ensures Program(Vm.BranchLines(Defined("if-goto"), Defined(name)).value)
      == PopD() + [At(Named(name)), Jump(Of(D), JNE)]
  {
    var head := ["@SP", "M=M-1", "A=M", "D=M"];
    var tail := ["@" + name, "D;JNE"];
    assert Vm.BranchLines(Defined("if-goto"), Defined(name)).value == head + tail;
    ProgramAppend(head, tail);
    PopDLines();
    DecodeTarget(name);
    DecodeJumps();
  }

  /** if-goto name: SP moves down, and control goes to the line `name` is
      bound to when the old top is not 0 (false), else past the template. */
  lemma IfGotoMeaning(symbols: map<string, nat>, name: string, m: Machine, top: int)
    requires name != "" && SymbolOf(name) == Named(name)
    requires top == Wrap(Sp(m) - 1) && top != 0
    ensures Vm.BranchLines(Defined("if-goto"), Defined(name)).Defined?
    ensures var r := Run(symbols, Program(Vm.BranchLines(Defined("if-goto"), Defined(name)).value), 0, m, 6);
      r.0 == (if Read(m, top) != 0 then Variable(symbols, name) else 6) && r.1.ram == m.ram[0 := top]
  {
    IfGotoLines(name);
    var prog := PopD() + [At(Named(name)), Jump(Of(D), JNE)];
    assert NoJumps(prog, 0, 5);
    RunStraight(symbols, prog, 0, 5, m, 1);
    ExecSlice(symbols, prog, 0, 5, m);
    assert prog[0..5] == PopD() + [At(Named(name))];
    EffectAppend(symbols, PopD(), [At(Named(name))], m);
    PopDMeaning(symbols, m);
    var m4 := Effect(symbols, PopD(), m);
    var m5 := m4.(a := Variable(symbols, name));
    assert Exec(symbols, [At(Named(name))], 0, 1, m4) == m5;
    RunJump(symbols, prog, 5, m5, 0);
  }

  /** goto name: control goes to the line `name` is bound to; memory is
      unchanged. */
  lemma GotoMeaning(symbols: map<string, nat>, name: string, m: Machine)
    requires name != "" && SymbolOf(name) == Named(name)
    ensures Vm.BranchLines(Defined("goto"), Defined(name)).Defined?
    ensures var r := Run(symbols, Program(Vm.BranchLines(Defined("goto"), Defined(name)).value), 0, m, 2);
      r.0 == Variable(symbols, name) && r.1.ram == m.ram
  {
    var lines := ["@" + name, "0;JMP"];
    assert Vm.BranchLines(Defined("goto"), Defined(name)).value == lines;
    DecodeTarget(name);
    DecodeJumps();
    var prog := [At(Named(name)), Jump(Zero, JMP)];
    assert Program(lines) == prog;
    var m1 := m.(a := Variable(symbols, name));
    assert Run(symbols, prog, 0, m, 2) == Run(symbols, prog, 1, m1, 1);
    RunJump(symbols, prog, 1, m1, 0);
  }

  /** label name: the template is the label alone, which does nothing when
      run. */
  lemma LabelMeaning(symbols: map<string, nat>, name: string, m: Machine)
    requires name != ""
    ensures Vm.BranchLines(Defined("label"), Defined(name)).Defined?
    ensures Program(Vm.BranchLines(Defined("label"), Defined(name)).value) == [Label(name)]
    ensures Run(symbols, [Label(name)], 0, m, 1) == (1, m)
  {
    assert Vm.BranchLines(Defined("label"), Defined(name)).value == ["(" + name + ")"];
    DecodeLabel(name);
  }
}
