/**
  The Hack computer as the VM translator's output expects it: a 16-bit
  machine with registers A and D, a RAM whose cell 0 holds the stack
  pointer SP and cells 1-4 hold LCL, ARG, THIS and THAT, and an
  instruction set of `@value`, `dest=comp`, `comp;jump` and `(label)`.

  `Decode` reads the assembly lines the translator emits (and only those
  forms; any other line decodes to `Other` and does nothing).  `Exec` runs
  a program without jumps from one line to another; `Run` follows jumps,
  where a label is bound, through `symbols`, to the position of its own
  line.  Words are kept as integers in [0, 2^16), memory as a map from
  addresses to words (an absent cell reads 0).
*/
module Hack {
  import opened Js

  datatype Reg = A | D | M

  /** The computations the translator's templates use. */
  datatype Comp =
    | Zero | MinusOne
    | Of(r: Reg) | Inc(r: Reg) | Dec(r: Reg) | Neg(r: Reg) | Not(r: Reg)
    | Sum(x: Reg, y: Reg) | Diff(x: Reg, y: Reg) | And(x: Reg, y: Reg) | Or(x: Reg, y: Reg)

  datatype Cond = JGT | JEQ | JGE | JLT | JNE | JLE | JMP

  /** What `@` refers to: a predefined register or any other text, which is
      a number when it is all digits and a symbol otherwise. */
  datatype Symbol = SP | LCL | ARG | THIS | THAT | Named(text: string)

  datatype Instr =
    | At(symbol: Symbol)
    | Set(dest: Reg, comp: Comp)
    | Jump(cond: Comp, jump: Cond)
    | Label(name: string)
    | Other

  /** The symbol named by the text after `@`. */
  function SymbolOf(x: string): Symbol
  {
    match x
    case "SP" => SP
    case "LCL" => LCL
    case "ARG" => ARG
    case "THIS" => THIS
    case "THAT" => THAT
    case _ => Named(x)
  }

  /** The instruction an assembly line holds.  As in the assembler's own
      patterns, `@` and `(…)` need at least one character of name. */
  function Decode(line: string): Instr
  {
    if |line| >= 2 && line[0] == '@' then At(SymbolOf(line[1..]))
    else if |line| >= 3 && line[0] == '(' && line[|line| - 1] == ')' then Label(line[1..|line| - 1])
    else
      match line
      case "D=A" => Set(D, Of(A))
      case "D=M" => Set(D, Of(M))
      case "A=M" => Set(A, Of(M))
      case "A=D" => Set(A, Of(D))
      case "M=D" => Set(M, Of(D))
      case "M=0" => Set(M, Zero)
      case "M=-1" => Set(M, MinusOne)
      case "M=M+1" => Set(M, Inc(M))
      case "M=M-1" => Set(M, Dec(M))
      case "A=A-1" => Set(A, Dec(A))
      case "M=-M" => Set(M, Neg(M))
      case "M=!M" => Set(M, Not(M))
      case "A=M+D" => Set(A, Sum(M, D))
      case "D=D+A" => Set(D, Sum(D, A))
      case "D=D+M" => Set(D, Sum(D, M))
      case "M=M+D" => Set(M, Sum(M, D))
      case "M=M-D" => Set(M, Diff(M, D))
      case "M=M&D" => Set(M, And(M, D))
      case "M=M|D" => Set(M, Or(M, D))
      case "0;JMP" => Jump(Zero, JMP)
      case "D;JNE" => Jump(Of(D), JNE)
      case "D;JEQ" => Jump(Of(D), JEQ)
      case "D;JGT" => Jump(Of(D), JGT)
      case "D;JLT" => Jump(Of(D), JLT)
      case _ => Other
  }

  /** `@x` loads x. */
  lemma DecodeAt(x: string)
    requires x != ""
    ensures Decode("@" + x) == At(SymbolOf(x))
  {
    assert ("@" + x)[0] == '@' && ("@" + x)[1..] == x;
  }

  /** `(x)` is a label. */
  lemma DecodeLabel(x: string)
    requires x != ""
    ensures Decode("(" + x + ")") == Label(x)
  {
    var line := "(" + x + ")";
    assert line[0] == '(' && line[|line| - 1] == ')' && line[1..|line| - 1] == x;
  }

  /** A bare `@` and an empty `()` are no instruction of the language. */
  lemma EmptyNamesUndecoded()
    ensures Decode("@") == Other && Decode("()") == Other
  {
  }

  /** A text that starts with a digit or a lower-case letter names no register. */
  lemma NamedSymbol(x: string)
    requires x != [] && ('0' <= x[0] <= '9' || 'a' <= x[0] <= 'z')
    ensures SymbolOf(x) == Named(x)
  {
    assert x != "SP" && x != "LCL" && x != "ARG" && x != "THIS" && x != "THAT" by {
      assert "SP"[0] == 'S' && "LCL"[0] == 'L' && "ARG"[0] == 'A' && "THIS"[0] == 'T' && "THAT"[0] == 'T';
    }
  }

  lemma DecodeMoves()
    ensures Decode("D=A") == Set(D, Of(A)) && Decode("D=M") == Set(D, Of(M))
    ensures Decode("A=M") == Set(A, Of(M)) && Decode("A=D") == Set(A, Of(D))
    ensures Decode("M=D") == Set(M, Of(D))
  {
  }

  lemma DecodeArithmetic()
    ensures Decode("M=0") == Set(M, Zero) && Decode("M=-1") == Set(M, MinusOne)
    ensures Decode("M=M+1") == Set(M, Inc(M)) && Decode("M=M-1") == Set(M, Dec(M))
    ensures Decode("A=A-1") == Set(A, Dec(A))
    ensures Decode("A=M+D") == Set(A, Sum(M, D)) && Decode("D=D+A") == Set(D, Sum(D, A))
    ensures Decode("D=D+M") == Set(D, Sum(D, M))
  {
  }

  lemma DecodeJumps()
    ensures Decode("0;JMP") == Jump(Zero, JMP) && Decode("D;JNE") == Jump(Of(D), JNE)
    ensures Decode("D;JEQ") == Jump(Of(D), JEQ) && Decode("D;JGT") == Jump(Of(D), JGT)
    ensures Decode("D;JLT") == Jump(Of(D), JLT)
  {
  }

  lemma DecodeOperators()
    ensures Decode("M=-M") == Set(M, Neg(M)) && Decode("M=!M") == Set(M, Not(M))
    ensures Decode("M=M+D") == Set(M, Sum(M, D)) && Decode("M=M-D") == Set(M, Diff(M, D))
    ensures Decode("M=M&D") == Set(M, And(M, D)) && Decode("M=M|D") == Set(M, Or(M, D))
  {
  }

  /** The program a list of lines holds. */
  function Program(lines: seq<string>): (prog: seq<Instr>)
    ensures |prog| == |lines|
    ensures forall k | 0 <= k < |lines| :: prog[k] == Decode(lines[k])
  {
    seq(|lines|, k requires 0 <= k < |lines| => Decode(lines[k]))
  }

  lemma ProgramAppend(p: seq<string>, q: seq<string>)
    ensures Program(p + q) == Program(p) + Program(q)
  {
    assert forall k | 0 <= k < |p + q| :: (p + q)[k] == if k < |p| then p[k] else q[k - |p|];
  }

  // ------------------------------------------------------------ words

  const Word := 65536

  /** A 16-bit result. */
  function Wrap(x: int): int { x % Word }

  /** An `@n` constant: A-instructions carry 15 bits. */
  function Constant(n: nat): int { n % 32768 }

  /** The word as a two's complement number. */
  function Signed(v: int): int { if v >= 32768 then v - Word else v }

  /** A 16-bit bitwise operation, bit by bit from the low end. */
  function Bitwise(x: nat, y: nat, both: bool, width: nat): nat
    decreases width
  {
    if width == 0 then 0
    else
      var b := if both then (x % 2 == 1 && y % 2 == 1) else (x % 2 == 1 || y % 2 == 1);
      (if b then 1 else 0) + 2 * Bitwise(x / 2, y / 2, both, width - 1)
  }

  // ---------------------------------------------------------- machine

  datatype Machine = Machine(a: int, d: int, ram: map<int, int>)

  function Read(m: Machine, addr: int): int
  {
    if addr in m.ram then m.ram[addr] else 0
  }

  function Get(r: Reg, m: Machine): int
  {
    match r
    case A => m.a
    case D => m.d
    case M => Read(m, m.a)
  }

  function Eval(c: Comp, m: Machine): int
  {
    match c
    case Zero => 0
    case MinusOne => Word - 1
    case Of(r) => Get(r, m)
    case Inc(r) => Wrap(Get(r, m) + 1)
    case Dec(r) => Wrap(Get(r, m) - 1)
    case Neg(r) => Wrap(-Get(r, m))
    case Not(r) => Wrap(Word - 1 - Get(r, m))
    case Sum(x, y) => Wrap(Get(x, m) + Get(y, m))
    case Diff(x, y) => Wrap(Get(x, m) - Get(y, m))
    case And(x, y) => Bitwise(Wrap(Get(x, m)), Wrap(Get(y, m)), true, 16)
    case Or(x, y) => Bitwise(Wrap(Get(x, m)), Wrap(Get(y, m)), false, 16)
  }

  function Assign(r: Reg, v: int, m: Machine): Machine
  {
    match r
    case A => m.(a := v)
    case D => m.(d := v)
    case M => m.(ram := m.ram[m.a := v])
  }

  /** The value `@symbol` loads into A. */
  function Load(symbols: map<string, nat>, s: Symbol): int
  {
    match s
    case SP => 0
    case LCL => 1
    case ARG => 2
    case THIS => 3
    case THAT => 4
    case Named(x) =>
      if IsDigits(x) then Constant(DecimalValue(x))
      else if x in symbols then symbols[x]
      else 0
  }

  function Taken(j: Cond, v: int): bool
  {
    match j
    case JGT => Signed(v) > 0
    case JEQ => v == 0
    case JGE => Signed(v) >= 0
    case JLT => Signed(v) < 0
    case JNE => v != 0
    case JLE => Signed(v) <= 0
    case JMP => true
  }

  /** One instruction other than a jump. */
  function Step(symbols: map<string, nat>, ins: Instr, m: Machine): Machine
  {
    match ins
    case At(s) => m.(a := Load(symbols, s))
    case Set(r, c) => Assign(r, Eval(c, m), m)
    case _ => m
  }

  /** The machine after the lines lo until hi of a program without jumps. */
  function Exec(symbols: map<string, nat>, prog: seq<Instr>, lo: nat, hi: nat, m: Machine): Machine
    requires lo <= hi <= |prog|
    decreases hi
  {
    if hi == lo then m else Step(symbols, prog[hi - 1], Exec(symbols, prog, lo, hi - 1, m))
  }

  /** The machine after a whole program without jumps. */
  function Effect(symbols: map<string, nat>, prog: seq<Instr>, m: Machine): Machine
  {
    Exec(symbols, prog, 0, |prog|, m)
  }

  /** Lines of a program behave the same after more lines are appended. */
  lemma {:induction false} ExecPrefix(symbols: map<string, nat>, p: seq<Instr>, q: seq<Instr>, k: nat, m: Machine)
    requires k <= |p|
    ensures Exec(symbols, p + q, 0, k, m) == Exec(symbols, p, 0, k, m)
    decreases k
  {
    if k > 0 {
      ExecPrefix(symbols, p, q, k - 1, m);
      assert (p + q)[k - 1] == p[k - 1];
    }
  }

  /** Executing lines lo until hi is executing that slice of the program. */
  lemma {:induction false} ExecSlice(symbols: map<string, nat>, prog: seq<Instr>, lo: nat, hi: nat, m: Machine)
    requires lo <= hi <= |prog|
    ensures Exec(symbols, prog, lo, hi, m) == Effect(symbols, prog[lo..hi], m)
    decreases hi
  {
    if hi > lo {
      ExecSlice(symbols, prog, lo, hi - 1, m);
      assert prog[lo..hi] == prog[lo..hi - 1] + [prog[hi - 1]];
      ExecPrefix(symbols, prog[lo..hi - 1], [prog[hi - 1]], hi - 1 - lo, m);
    }
  }

  /** Running two programs one after the other is running their concatenation. */
  lemma {:induction false} ExecAppend(symbols: map<string, nat>, p: seq<Instr>, q: seq<Instr>, k: nat, m: Machine)
    requires k <= |q|
    ensures Exec(symbols, p + q, 0, |p| + k, m) == Exec(symbols, q, 0, k, Effect(symbols, p, m))
    decreases k
  {
    if k == 0 {
      ExecPrefix(symbols, p, q, |p|, m);
    } else {
      ExecAppend(symbols, p, q, k - 1, m);
      assert (p + q)[|p| + k - 1] == q[k - 1];
    }
  }

  lemma EffectAppend(symbols: map<string, nat>, p: seq<Instr>, q: seq<Instr>, m: Machine)
    ensures Effect(symbols, p + q, m) == Effect(symbols, q, Effect(symbols, p, m))
  {
    ExecAppend(symbols, p, q, |q|, m);
  }

  /** At most `fuel` instructions from line `pc`, jumps included: the line
      reached and the machine there. */
  function Run(symbols: map<string, nat>, prog: seq<Instr>, pc: nat, m: Machine, fuel: nat): (nat, Machine)
    decreases fuel
  {
    if fuel == 0 || pc >= |prog| then (pc, m)
    else
      match prog[pc]
      case Jump(c, j) =>
        var target := if Taken(j, Eval(c, m)) && m.a >= 0 then m.a else pc + 1;
        Run(symbols, prog, target, m, fuel - 1)
      case _ => Run(symbols, prog, pc + 1, Step(symbols, prog[pc], m), fuel - 1)
  }

  predicate NoJumps(prog: seq<Instr>, lo: nat, hi: nat)
  {
    forall k | lo <= k < hi && k < |prog| :: !prog[k].Jump?
  }

  /** Running the first line and then the rest is running them all. */
  lemma {:induction false} ExecFirst(symbols: map<string, nat>, prog: seq<Instr>, lo: nat, hi: nat, m: Machine)
    requires lo < hi <= |prog|
    ensures Exec(symbols, prog, lo, hi, m) == Exec(symbols, prog, lo + 1, hi, Step(symbols, prog[lo], m))
    decreases hi
  {
    if hi > lo + 1 {
      ExecFirst(symbols, prog, lo, hi - 1, m);
    }
  }

  /** A jump goes to A when its condition holds of its computation. */
  lemma RunJump(symbols: map<string, nat>, prog: seq<Instr>, pc: nat, m: Machine, fuel: nat)
    requires pc < |prog| && prog[pc].Jump?
    ensures var taken := Taken(prog[pc].jump, Eval(prog[pc].cond, m));
      Run(symbols, prog, pc, m, fuel + 1) == Run(symbols, prog, if taken && m.a >= 0 then m.a else pc + 1, m, fuel)
  {
  }

  /** Past the last line the machine stops. */
  lemma RunEnd(symbols: map<string, nat>, prog: seq<Instr>, pc: nat, m: Machine, fuel: nat)
    requires pc >= |prog|
    ensures Run(symbols, prog, pc, m, fuel) == (pc, m)
  {
  }

  /** Without jumps, running is executing the lines in order. */
  lemma {:induction false} RunStraight(symbols: map<string, nat>, prog: seq<Instr>, pc: nat, k: nat, m: Machine, fuel: nat)
    requires pc + k <= |prog| && NoJumps(prog, pc, pc + k)
    ensures Run(symbols, prog, pc, m, fuel + k) == Run(symbols, prog, pc + k, Exec(symbols, prog, pc, pc + k, m), fuel)
    decreases k
  {
    if k > 0 {
      assert !prog[pc].Jump?;
      RunStraight(symbols, prog, pc + 1, k - 1, Step(symbols, prog[pc], m), fuel);
      ExecFirst(symbols, prog, pc, pc + k, m);
    }
  }
}
