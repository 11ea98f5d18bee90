/**
  The Hack assembler (projects/6/Assembler.js): it turns one line of Hack
  assembly into a 16-character binary word, through a symbol table that
  starts with the predefined registers, gains the labels bound by a first
  pass over the program, and allocates variables from RAM address 16 up.

  The source keeps the symbol table, the line count and the next free RAM
  address in module-level variables; here they are the fields of the class
  `Assembler`, and `AsmState` is their value. Errors raised with
  `throw_error` are the `Error` case of `Outcome`.
*/
module Assembler {
  import opened Js
  import Hack

  const MAX_ROM := 32767
  const MAX_RAM := 24576

  datatype Option<T> = None | Some(value: T)

  /** The two codes `throw_error` is called with. */
  datatype ErrorCode = RamRange | RomRange

  /** The message of the Error that `throw_error` throws. */
  function Message(code: ErrorCode): string
  {
    match code
    case RamRange => "Out of Memory: Memory allocation failed."
    case RomRange => "Out of Range: Program cannot contain more than 32,767 instructions."
  }

  /** A call that returns a value or throws one of the assembler's errors. */
  datatype Outcome<T> = Ok(value: T) | Error(code: ErrorCode)

  /** The symbols every program starts with. */
  const Predefined: map<string, nat> := map[
    "R0" := 0, "R1" := 1, "R2" := 2, "R3" := 3, "R4" := 4, "R5" := 5, "R6" := 6,
    "R7" := 7, "R8" := 8, "R9" := 9, "R10" := 10, "R11" := 11, "R12" := 12,
    "R13" := 13, "R14" := 14, "R15" := 15, "SCREEN" := 16384, "KBD" := 24576,
    "SP" := 0, "LCL" := 1, "ARG" := 2, "THIS" := 3, "THAT" := 4]

  /** The module-level state: SYMBOL_TABLE, line_count and free_ram_location. */
  datatype AsmState = AsmState(symbols: map<string, nat>, lineCount: nat, freeRam: nat)

  const Initial := AsmState(Predefined, 0, 16)

  // ------------------------------------------------------------ fields

  /** get_jump_bits. */
  function JumpBits(e: string): string
  {
    match e
    case "JGT" => "001"
    case "JEQ" => "010"
    case "JGE" => "011"
    case "JLT" => "100"
    case "JNE" => "101"
    case "JLE" => "110"
    case "JMP" => "111"
    case _ => "000"
  }

  /** The condition a jump mnemonic names, as the Hack machine tests it. */
  function JumpCondition(e: string): Option<Hack.Cond>
  {
    match e
    case "JGT" => Some(Hack.JGT)
    case "JEQ" => Some(Hack.JEQ)
    case "JGE" => Some(Hack.JGE)
    case "JLT" => Some(Hack.JLT)
    case "JNE" => Some(Hack.JNE)
    case "JLE" => Some(Hack.JLE)
    case "JMP" => Some(Hack.JMP)
    case _ => None
  }

  /** The jump bits encode the mnemonic's condition one sign at a time: the
      first bit jumps on a negative result, the second on zero, the third on
      a positive one.  A field naming no condition, a missing one included,
      never jumps. */
  lemma JumpBitsMeaning(e: string, v: int)
    requires 0 <= v < Hack.Word
    ensures |JumpBits(e)| == 3
    ensures var b := JumpBits(e);
      ((Hack.Signed(v) < 0 && b[0] == '1') || (v == 0 && b[1] == '1') || (Hack.Signed(v) > 0 && b[2] == '1'))
      <==> (JumpCondition(e).Some? && Hack.Taken(JumpCondition(e).value, v))
  {
  }

  /** Every character of e is one of `cs`, and every one of `cs` occurs in e. */
  predicate MadeOf(e: string, cs: string)
  {
    (forall i | 0 <= i < |e| :: e[i] in cs) && (forall j | 0 <= j < |cs| :: cs[j] in e)
  }

  /** get_destination_bits: the regular expressions accept the two-letter
      strings over a pair of letters that use both, and the three-letter
      strings over A, D, M that use all three. */
  function DestBits(e: string): string
  {
    if e == "M" then "001"
    else if e == "D" then "010"
    else if e == "A" then "100"
    else if |e| == 2 && MadeOf(e, "AD") then "110"
    else if |e| == 2 && MadeOf(e, "AM") then "101"
    else if |e| == 2 && MadeOf(e, "DM") then "011"
    else if |e| == 3 && MadeOf(e, "ADM") then "111"
    else "000"
  }

  /** get_computation_bits: the a-bit and the six ALU control bits; undefined
      for a form that is not listed. */
  function CompBits(e: string): JsValue<string>
  {
    match e
    case "0" => Defined("0101010")
    case "1" => Defined("0111111")
    case "-1" => Defined("0111010")
    case "D" => Defined("0001100")
    case "A" => Defined("0110000")
    case "M" => Defined("1110000")
    case "!D" => Defined("0001101")
    case "!A" => Defined("0110001")
    case "!M" => Defined("1110001")
    case "-D" => Defined("0001111")
    case "-A" => Defined("0110011")
    case "-M" => Defined("1110011")
    case "D-1" => Defined("0001110")
    case "A-1" => Defined("0110010")
    case "M-1" => Defined("1110010")
    case "D-A" => Defined("0010011")
    case "D-M" => Defined("1010011")
    case "A-D" => Defined("0000111")
    case "M-D" => Defined("1000111")
    case "D+1" | "1+D" => Defined("0011111")
    case "A+1" | "1+A" => Defined("0110111")
    case "M+1" | "1+M" => Defined("1110111")
    case "D+A" | "A+D" => Defined("0000010")
    case "D+M" | "M+D" => Defined("1000010")
    case "D&A" | "A&D" => Defined("0000000")
    case "D&M" | "M&D" => Defined("1000000")
    case "D|A" | "A|D" => Defined("0010101")
    case "D|M" | "M|D" => Defined("1010101")
    case _ => Undefined
  }

  /** The computation forms the table lists, in its order, in four groups. */
  const UnaryForms: seq<string> := ["0", "1", "-1", "D", "A", "M", "!D", "!A", "!M", "-D", "-A", "-M"]
  const DifferenceForms: seq<string> := ["D-1", "A-1", "M-1", "D-A", "D-M", "A-D", "M-D"]
  const SumForms: seq<string> := ["D+1", "1+D", "A+1", "1+A", "M+1", "1+M", "D+A", "A+D", "D+M", "M+D"]
  const LogicForms: seq<string> := ["D&A", "A&D", "D&M", "M&D", "D|A", "A|D", "D|M", "M|D"]
  const CompForms: seq<string> := UnaryForms + DifferenceForms + SumForms + LogicForms

  /** Only the listed forms have a code. */
  lemma CompBitsOnlyForms(e: string)
    requires CompBits(e).Defined?
    ensures e in CompForms
  {
  }

  /** Every listed form has a code. */
  lemma CompFormsHaveCodes(e: string)
    requires e in CompForms
    ensures CompBits(e).Defined?
  {
    assert CompForms == (UnaryForms + DifferenceForms) + (SumForms + LogicForms);
    if e in UnaryForms + DifferenceForms {
      OneOperandFormsHaveCodes(e);
    } else {
      TwoOperandFormsHaveCodes(e);
    }
  }

  lemma TwoOperandFormsHaveCodes(e: string)
    requires e in SumForms + LogicForms
    ensures CompBits(e).Defined?
  {
  }

  lemma OneOperandFormsHaveCodes(e: string)
    requires e in UnaryForms + DifferenceForms
    ensures CompBits(e).Defined?
  {
  }

  /** Each code is seven bits, and its leading a-bit is 1 exactly when the
      form reads M. */
  lemma CompBitsCode(e: string)
    requires CompBits(e).Defined?
    ensures |CompBits(e).value| == 7
    ensures forall k | 0 <= k < 7 :: CompBits(e).value[k] in "01"
    ensures CompBits(e).value[0] == '1' <==> 'M' in e
  {
  }

  /** Both operand orders of a sum get one code. */
  lemma SumsCommute()
    ensures CompBits("D+1") == CompBits("1+D") && CompBits("A+1") == CompBits("1+A")
    ensures CompBits("M+1") == CompBits("1+M") && CompBits("D+A") == CompBits("A+D")
    ensures CompBits("D+M") == CompBits("M+D")
  {
  }

  /** Both operand orders of a conjunction or disjunction get one code. */
  lemma LogicCommutes()
    ensures CompBits("D&A") == CompBits("A&D") && CompBits("D&M") == CompBits("M&D")
    ensures CompBits("D|A") == CompBits("A|D") && CompBits("D|M") == CompBits("M|D")
  {
  }

  /** One to three distinct letters from A, D and M. */
  predicate DistinctLetters(e: string)
  {
    && 1 <= |e| <= 3
    && (forall i | 0 <= i < |e| :: e[i] in "ADM")
    && (forall i, j | 0 <= i < j < |e| :: e[i] != e[j])
  }

  /** The destination code is order-insensitive: distinct letters from A, D, M
      get the bits (A in it, D in it, M in it); anything else gets 000. */
  lemma DestBitsMeaning(e: string)
    ensures DistinctLetters(e) ==>
      DestBits(e) == [if 'A' in e then '1' else '0', if 'D' in e then '1' else '0',
                      if 'M' in e then '1' else '0']
    ensures !DistinctLetters(e) ==> DestBits(e) == "000"
  {
    if DistinctLetters(e) {
      DestBitsDistinct(e);
    } else {
      DestBitsOther(e);
    }
  }

  lemma DestBitsDistinct(e: string)
    requires DistinctLetters(e)
    ensures DestBits(e) == [if 'A' in e then '1' else '0', if 'D' in e then '1' else '0',
                            if 'M' in e then '1' else '0']
  {
    if |e| == 1 {
      assert e == [e[0]];
    } else if |e| == 2 {
      assert e == [e[0], e[1]];
      assert e[0] in e && e[1] in e;
      if e[0] != 'A' && e[1] != 'A' {
        assert MadeOf(e, "DM");
      } else if e[0] != 'D' && e[1] != 'D' {
        assert MadeOf(e, "AM");
      } else {
        assert MadeOf(e, "AD");
      }
    } else {
      assert e == [e[0], e[1], e[2]];
      assert e[0] in e && e[1] in e && e[2] in e;
      assert MadeOf(e, "ADM");
    }
  }

  lemma DestBitsOther(e: string)
    requires !DistinctLetters(e)
    ensures DestBits(e) == "000"
  {
    if 1 <= |e| <= 3 {
      if exists i | 0 <= i < |e| :: e[i] !in "ADM" {
        var i :| 0 <= i < |e| && e[i] !in "ADM";
        assert e[i] !in "AD" && e[i] !in "AM" && e[i] !in "DM";
      } else {
        var i, j :| 0 <= i < j < |e| && e[i] == e[j];
        if |e| == 2 {
          assert e == [e[0], e[0]];
          assert forall c | c in e :: c == e[0];
          assert !MadeOf(e, "AD") by {
            assert "AD"[0] == 'A' && "AD"[1] == 'D';
          }
          assert !MadeOf(e, "AM") by {
            assert "AM"[0] == 'A' && "AM"[1] == 'M';
          }
          assert !MadeOf(e, "DM") by {
            assert "DM"[0] == 'D' && "DM"[1] == 'M';
          }
        } else {
          var k := 3 - i - j;
          assert forall c | c in e :: c == e[i] || c == e[k];
          assert !MadeOf(e, "ADM") by {
            assert "ADM"[0] == 'A' && "ADM"[1] == 'D' && "ADM"[2] == 'M';
          }
        }
      }
    }
  }

  // ---------------------------------------------------------- numbers

  function Bit(n: nat): char
  {
    if n % 2 == 0 then '0' else '1'
  }

  /** The w low-order bits of n, most significant first. */
  function Bits(n: nat, w: nat): (s: string)
    ensures |s| == w
    ensures forall i | 0 <= i < w :: s[i] in "01"
  {
    if w == 0 then "" else Bits(n / 2, w - 1) + [Bit(n)]
  }

  /** What the loop of decimal_to_binary builds: the shortest numeral, empty
      for 0. */
  function Numeral(n: nat): string
  {
    if n == 0 then "" else Numeral(n / 2) + [Bit(n)]
  }

  /** `padStart(w, 0).slice(-w)`: zeros in front up to w characters, then the
      last w characters. */
  function PadSlice(s: string, w: nat): (r: string)
    ensures |r| == w
  {
    if |s| >= w then s[|s| - w..] else Zeros(w - |s|) + s
  }

  function Zeros(k: nat): (z: string)
    ensures |z| == k && forall i | 0 <= i < k :: z[i] == '0'
  {
    if k == 0 then "" else Zeros(k - 1) + "0"
  }

  function Pow2(w: nat): (p: nat)
    ensures p >= 1
  {
    if w == 0 then 1 else 2 * Pow2(w - 1)
  }

  /** The value of a string of bits, most significant first. */
  function BinaryValue(s: string): nat
  {
    if s == [] then 0 else 2 * BinaryValue(s[..|s| - 1]) + (if s[|s| - 1] == '1' then 1 else 0)
  }

  lemma ZeroBits(w: nat)
    ensures Bits(0, w) == Zeros(w)
  {
  }

  /** Padding and slicing the loop's numeral gives the low w bits. */
  lemma {:induction false} PadSliceNumeral(n: nat, w: nat)
    ensures PadSlice(Numeral(n), w) == Bits(n, w)
    decreases n
  {
    if n == 0 {
      ZeroBits(w);
    } else if w == 0 {
    } else {
      PadSliceNumeral(n / 2, w - 1);
      var s := Numeral(n / 2);
      assert Numeral(n) == s + [Bit(n)];
      if |s| >= w - 1 {
        assert (s + [Bit(n)])[|s| + 1 - w..] == s[|s| - (w - 1)..] + [Bit(n)];
      } else {
        assert Zeros(w - 1 - |s|) + s + [Bit(n)] == Zeros(w - |s| - 1) + (s + [Bit(n)]);
      }
    }
  }

  /** n % (2 P) splits into the low bit and the rest. */
  lemma ModTwice(n: nat, p: nat)
    requires p >= 1
    ensures n % (2 * p) == 2 * ((n / 2) % p) + n % 2
  {
    var q := n / 2;
    var b := q % p;
    var a := q / p;
    assert n == 2 * q + n % 2;
    assert q == p * a + b;
    assert n == (2 * p) * a + (2 * b + n % 2);
    assert 0 <= 2 * b + n % 2 < 2 * p;
    ModUnique(n, 2 * p, a, 2 * b + n % 2);
  }

  lemma ModUnique(n: nat, d: nat, a: int, m: int)
    requires d >= 1 && n == d * a + m && 0 <= m < d
    ensures n % d == m
  {
    var a' := n / d;
    var m' := n % d;
    assert n == d * a' + m';
    if a' > a {
      MulAtLeast(d, a' - a);
      Distribute(d, a, a' - a);
      assert false;
    } else if a > a' {
      MulAtLeast(d, a - a');
      Distribute(d, a', a - a');
      assert false;
    }
  }

  lemma Distribute(d: nat, a: int, k: int)
    ensures d * (a + k) == d * a + d * k
  {
  }

  lemma {:induction false} MulAtLeast(d: nat, k: int)
    requires k >= 1
    ensures d * k >= d
    decreases k
  {
    if k > 1 {
      MulAtLeast(d, k - 1);
      assert d * k == d * (k - 1) + d;
    }
  }

  /** The w bits encode n modulo 2^w. */
  lemma {:induction false} BitsValue(n: nat, w: nat)
    ensures BinaryValue(Bits(n, w)) == n % Pow2(w)
  {
    if w > 0 {
      BitsValue(n / 2, w - 1);
      var s := Bits(n, w);
      assert s[..|s| - 1] == Bits(n / 2, w - 1);
      ModTwice(n, Pow2(w - 1));
    }
  }

  /** The number of binary digits of n. */
  function BitLength(n: nat): nat
  {
    if n == 0 then 0 else 1 + BitLength(n / 2)
  }

  /** n is below 2^k exactly when it has at most k binary digits. */
  lemma {:induction false} BitLengthBelow(n: nat, k: nat)
    ensures n < Pow2(k) <==> BitLength(n) <= k
    decreases k
  {
    if k > 0 && n > 0 {
      BitLengthBelow(n / 2, k - 1);
    }
  }

  /** v shifted right by e bits: v div 2^e. */
  function Shift(v: nat, e: nat): nat
  {
    if e == 0 then v else Shift(v / 2, e - 1)
  }

  /** The e low bits of v: v mod 2^e. */
  function LowBits(v: nat, e: nat): nat
  {
    if e == 0 then 0 else 2 * LowBits(v / 2, e - 1) + v % 2
  }

  /** v splits at bit e into its high and low parts. */
  lemma {:induction false} ShiftSplit(v: nat, e: nat)
    ensures v == Shift(v, e) * Pow2(e) + LowBits(v, e) && LowBits(v, e) < Pow2(e)
    decreases e
  {
    if e > 0 {
      ShiftSplit(v / 2, e - 1);
      var q := Shift(v / 2, e - 1);
      var r := LowBits(v / 2, e - 1);
      assert v / 2 == q * Pow2(e - 1) + r;
      assert q * Pow2(e) == 2 * (q * Pow2(e - 1));
    }
  }

  /** `Number()` of a digit string of value v: the nearest double, ties to
      even, which keeps 53 significant bits; None when that rounds past the
      largest double to Infinity. */
  function RoundToDouble(v: nat): Option<nat>
  {
    if BitLength(v) <= 53 then Some(v)
    else
      var e: nat := BitLength(v) - 53;
      var q := RoundedHigh(v, e);
      if BitLength(q) + e > 1024 then None else Some(q * Pow2(e))
  }

  /** The bits of v above bit e, rounded to nearest by the bits below, ties
      to the even neighbour. */
  function RoundedHigh(v: nat, e: nat): nat
    requires e >= 1
  {
    var q := Shift(v, e);
    var r := LowBits(v, e);
    var half := Pow2(e - 1);
    if r > half || (r == half && q % 2 == 1) then q + 1 else q
  }

  /** Scaled back by 2^e, the rounded high part lies within 2^(e-1) of v. */
  lemma RoundedHighNear(v: nat, e: nat)
    requires e >= 1
    ensures -(Pow2(e - 1) as int) <= (RoundedHigh(v, e) * Pow2(e)) as int - v as int <= Pow2(e - 1)
  {
    var q := Shift(v, e);
    var r := LowBits(v, e);
    var half := Pow2(e - 1);
    var up := r > half || (r == half && q % 2 == 1);
    ShiftSplit(v, e);
    assert Pow2(e) == 2 * half;
    RoundStep(v, q, r, half, up);
  }

  /** Integers below 2^53 are doubles already. */
  lemma SmallNumbersExact(v: nat)
    requires v < Pow2(53)
    ensures RoundToDouble(v) == Some(v)
  {
    BitLengthBelow(v, 53);
  }

  /** Above 2^53 the double is a multiple of 2^e, e the bits beyond the 53rd,
      and lies within half of 2^e of the value: it is a nearest one. */
  lemma RoundingError(v: nat)
    requires BitLength(v) > 53 && RoundToDouble(v).Some?
    ensures var e := BitLength(v) - 53; var d := RoundToDouble(v).value;
      && d % Pow2(e) == 0
      && -(Pow2(e - 1) as int) <= d as int - v as int <= Pow2(e - 1)
  {
    var e: nat := BitLength(v) - 53;
    assert RoundToDouble(v).value == RoundedHigh(v, e) * Pow2(e);
    RoundedHighNear(v, e);
    MultipleMod(RoundedHigh(v, e), Pow2(e));
  }

  /** Rounding the high part q of v = q (2 half) + r up or down moves the value
      by at most half. */
  lemma RoundStep(v: nat, q: nat, r: nat, half: nat, up: bool)
    requires v == q * (2 * half) + r && r < 2 * half
    requires up ==> r >= half
    requires !up ==> r <= half
    ensures var q' := if up then q + 1 else q;
      -(half as int) <= (q' * (2 * half)) as int - v as int <= half
  {
    if up {
      Distribute(2 * half, q, 1);
    }
  }

  lemma MultipleMod(k: nat, p: nat)
    requires p >= 1
    ensures (k * p) % p == 0
  {
    ModUnique(k * p, p, k, 0);
  }

  /** 2^53 + 1 is the first integer `Number()` cannot hold: it is a tie
      between 2^53 and 2^53 + 2 and rounds to the even 2^53, whose low fifteen
      bits are zero. */
  lemma BeyondTwoTo53(v: nat)
    requires v == Pow2(53) + 1
    ensures RoundToDouble(v) == Some(Pow2(53))
    ensures Bits(Pow2(53), 15) == Zeros(15)
  {
    var h := Pow2(52);
    TieStep(v, h);
    BitLengthBelow(v, 54);
    BitLengthBelow(v, 53);
    BitLengthBelow(h, 53);
    assert BitLength(v) == 54;
    assert RoundToDouble(v) == Some(h * Pow2(1));
    LowBitsOfPower(53, 15);
  }

  /** 2h + 1 splits at bit 1 into h and 1, a tie, and h, a power of two above 1,
      is even, so the tie rounds down to h. */
  lemma TieStep(v: nat, h: nat)
    requires h == Pow2(52) && v == 2 * h + 1
    ensures RoundedHigh(v, 1) == h
    ensures Pow2(53) == 2 * h == h * Pow2(1) && Pow2(54) == 4 * h && v > 0
  {
    assert h == 2 * Pow2(51);
    assert Shift(v, 1) == h && LowBits(v, 1) == 1 && Pow2(0) == 1;
  }

  /** The low w bits of 2^k are zero when k >= w. */
  lemma {:induction false} LowBitsOfPower(k: nat, w: nat)
    requires k >= w
    ensures Bits(Pow2(k), w) == Zeros(w)
    decreases w
  {
    if w > 0 {
      assert Pow2(k) / 2 == Pow2(k - 1) && Pow2(k) % 2 == 0;
      LowBitsOfPower(k - 1, w - 1);
    }
  }

  /** decimal_to_binary's loop ends unless the numeral is Infinity, which
      stays positive when halved. */
  predicate AddressHalts(symbol: string)
  {
    !IsDigits(symbol) || RoundToDouble(DecimalValue(symbol)).Some?
  }

  /** decimal_to_binary. */
  method DecimalToBinary(n: nat) returns (s: string)
    ensures s == Bits(n, 15)
  {
    var binary := "";
    var m := n;
    while m > 0
      invariant Numeral(n) == Numeral(m) + binary
      decreases m
    {
      binary := [Bit(m)] + binary;
      m := m / 2;
    }
    PadSliceNumeral(n, 15);
    s := PadSlice(binary, 15);
  }

  // -------------------------------------------------------- addressing

  /** p_address_instruction: a numeral is encoded as the double `Number()`
      makes of it; a known symbol by its address; an unknown one is bound to
      the next free RAM address, unless that has gone past MAX_RAM. */
  function Address(st: AsmState, symbol: string): (Outcome<string>, AsmState)
    requires AddressHalts(symbol)
  {
    if IsDigits(symbol) then (Ok("0" + Bits(RoundToDouble(DecimalValue(symbol)).value, 15)), st)
    else if symbol in st.symbols then (Ok("0" + Bits(st.symbols[symbol], 15)), st)
    else if st.freeRam > MAX_RAM then (Error(RamRange), st)
    else
      (Ok("0" + Bits(st.freeRam, 15)),
       st.(symbols := st.symbols[symbol := st.freeRam], freeRam := st.freeRam + 1))
  }

  /** A numeric `@n` becomes `0` and the fifteen low bits of the double
      nearest n, which is n itself below 2^53; nothing changes. */
  lemma AddressNumeral(st: AsmState, symbol: string)
    requires IsDigits(symbol) && AddressHalts(symbol)
    ensures Address(st, symbol).1 == st
    ensures var w := Address(st, symbol).0;
      && w.Ok? && |w.value| == 16 && w.value[0] == '0'
      && BinaryValue(w.value[1..]) == RoundToDouble(DecimalValue(symbol)).value % 32768
      && (DecimalValue(symbol) < Pow2(53) ==> BinaryValue(w.value[1..]) == DecimalValue(symbol) % 32768)
  {
    var n := RoundToDouble(DecimalValue(symbol)).value;
    BitsValue(n, 15);
    assert Pow2(15) == 32768;
    assert Address(st, symbol).0.value[1..] == Bits(n, 15);
    if DecimalValue(symbol) < Pow2(53) {
      SmallNumbersExact(DecimalValue(symbol));
    }
  }

  /** An unknown symbol is bound to the free address, which moves up by one;
      past MAX_RAM the call throws RAM_RANGE and nothing changes. */
  lemma AddressAllocates(st: AsmState, symbol: string)
    requires !IsDigits(symbol) && symbol !in st.symbols
    ensures var (r, st') := Address(st, symbol);
      && (st.freeRam <= MAX_RAM ==>
            && st'.symbols == st.symbols[symbol := st.freeRam]
            && st'.freeRam == st.freeRam + 1 && st'.lineCount == st.lineCount
            && r == Ok("0" + Bits(st.freeRam, 15)))
      && (st.freeRam > MAX_RAM ==> r == Error(RamRange) && st' == st)
  {
  }

  /** Looking a symbol up again gives the same word and allocates nothing. */
  lemma AddressRepeat(st: AsmState, symbol: string)
    requires AddressHalts(symbol) && Address(st, symbol).0.Ok?
    ensures var (r, st') := Address(st, symbol);
      Address(st', symbol) == (r, st')
  {
  }

  /** The predefined symbols stay bound to their addresses. */
  predicate KeepsPredefined(st: AsmState)
  {
    forall k | k in Predefined :: k in st.symbols && st.symbols[k] == Predefined[k]
  }

  /** A predefined symbol never allocates: its word is its fixed address. */
  lemma PredefinedNeverAllocate(st: AsmState, symbol: string)
    requires KeepsPredefined(st) && symbol in Predefined
    ensures AddressHalts(symbol) && Address(st, symbol) == (Ok("0" + Bits(Predefined[symbol], 15)), st)
  {
    PredefinedNotNumber(symbol);
  }

  /** Every predefined name starts with a letter. */
  lemma PredefinedNotNumber(symbol: string)
    requires symbol in Predefined
    ensures !IsDigits(symbol)
  {
    assert symbol[0] in "RSKLAT";
  }

  /** Lookups keep the predefined symbols. */
  lemma AddressKeepsPredefined(st: AsmState, symbol: string)
    requires KeepsPredefined(st) && AddressHalts(symbol)
    ensures KeepsPredefined(Address(st, symbol).1)
  {
  }

  // -------------------------------------------------- computation lines

  /** The piece of a split at index i, or undefined past the end. */
  function Chunk(pieces: seq<string>, i: nat): JsValue<string>
  {
    if i < |pieces| then Defined(pieces[i]) else Undefined
  }

  /** The first half of p_computation_instruction: white space removed, a
      missing destination made empty (`comp;jump` becomes `=comp;jump`), and a
      missing jump made empty (`dest=comp` becomes `dest=comp;`). */
  function Canonical(line: string): string
  {
    var s0 := RemoveWhiteSpace(line);
    var s1 := if ';' in s0 && '=' !in s0 then "=" + s0 else s0;
    if ';' !in s1 && '=' in s1 then s1 + ";" else s1
  }

  /** The second half: the word for the pieces between `=` and `;`. A missing
      piece is `undefined`: the jump and destination tables compare it with
      strings and test the text "undefined" against their patterns, and the
      computation table returns undefined for it, all as for the string
      "undefined". */
  function EncodeFields(pieces: seq<string>): string
  {
    "111" + Show(CompBits(Show(Chunk(pieces, 1)))) + DestBits(Show(Chunk(pieces, 0)))
      + JumpBits(Show(Chunk(pieces, 2)))
  }

  /** p_computation_instruction. */
  function ComputationInstruction(line: string): string
  {
    EncodeFields(Split(Canonical(line), {'=', ';'}))
  }

  /** A field without white space or separators. */
  predicate Plain(s: string)
  {
    forall i | 0 <= i < |s| :: !IsWhiteSpace(s[i]) && s[i] != '=' && s[i] != ';'
  }

  /** A plain field is a single piece. */
  lemma PlainPiece(j: string)
    requires Plain(j)
    ensures Split(j, {'=', ';'}) == [j]
  {
    SplitPiece(j, [], {'=', ';'});
    assert j + [] == j;
  }

  /** A plain field before a separator is the first piece. */
  lemma PlainHead(p: string, sep: char, t: string)
    requires Plain(p) && sep in {'=', ';'}
    ensures Split(p + ([sep] + t), {'=', ';'}) == [p] + Split(t, {'=', ';'})
  {
    SplitPiece(p, [sep] + t, {'=', ';'});
    assert ([sep] + t)[1..] == t;
  }

  lemma PlainPieces(d: string, c: string, j: string)
    requires Plain(d) && Plain(c) && Plain(j)
    ensures Split(d + "=" + c + ";" + j, {'=', ';'}) == [d, c, j]
  {
    var seps := {'=', ';'};
    var t2 := [';'] + j;
    var t1 := ['='] + (c + t2);
    assert Split(c + t2, seps) == [c, j] by {
      PlainPiece(j);
      PlainHead(c, ';', j);
    }
    assert Split(d + t1, seps) == [d, c, j] by {
      PlainHead(d, '=', c + t2);
    }
    assert d + "=" + c + ";" + j == d + t1;
  }

  predicate NoWhiteSpace(s: string)
  {
    forall i | 0 <= i < |s| :: !IsWhiteSpace(s[i])
  }

  lemma Joined(a: string, b: string)
    ensures NoWhiteSpace(a) && NoWhiteSpace(b) ==> NoWhiteSpace(a + b)
    ensures forall x :: x in a + b <==> x in a || x in b
  {
    if NoWhiteSpace(a) && NoWhiteSpace(b) {
      forall i | 0 <= i < |a + b| ensures !IsWhiteSpace((a + b)[i]) {
        if i >= |a| {
          assert (a + b)[i] == b[i - |a|];
        }
      }
    }
  }

  /** With both separators present the line is kept as it is. */
  lemma CanonicalFull(line: string)
    requires NoWhiteSpace(line) && ';' in line && '=' in line
    ensures Canonical(line) == line
  {
  }

  /** `comp;jump` gains an empty destination. */
  lemma CanonicalJump(line: string)
    requires NoWhiteSpace(line) && ';' in line && '=' !in line
    ensures Canonical(line) == "=" + line
  {
  }

  /** `dest=comp` gains an empty jump. */
  lemma CanonicalAssign(line: string)
    requires NoWhiteSpace(line) && ';' !in line && '=' in line
    ensures Canonical(line) == line + ";"
  {
  }

  /** The pieces of a plain field with its separators. */
  lemma PlainLine(d: string, c: string, j: string)
    requires Plain(d) && Plain(c) && Plain(j)
    ensures NoWhiteSpace(d + "=" + c + ";" + j) && NoWhiteSpace(c + ";" + j) && NoWhiteSpace(d + "=" + c)
    ensures '=' !in c + ";" + j && ';' !in d + "=" + c
    ensures '=' in d + "=" + c + ";" + j && ';' in d + "=" + c + ";" + j
  {
    assert NoWhiteSpace(d) && NoWhiteSpace(c) && NoWhiteSpace(j);
    assert NoWhiteSpace("=") && NoWhiteSpace(";");
    Joined(d, "=");
    Joined(d + "=", c);
    Joined(d + "=" + c, ";");
    Joined(d + "=" + c + ";", j);
    Joined(c, ";");
    Joined(c + ";", j);
  }

  /** `dest=comp;jump` encodes as `111`, the computation bits, the destination
      bits and the jump bits. */
  lemma FullComputation(d: string, c: string, j: string)
    requires Plain(d) && Plain(c) && Plain(j)
    ensures ComputationInstruction(d + "=" + c + ";" + j)
      == "111" + Show(CompBits(c)) + DestBits(d) + JumpBits(j)
  {
    PlainLine(d, c, j);
    CanonicalFull(d + "=" + c + ";" + j);
    PlainPieces(d, c, j);
  }

  /** An empty destination or jump field encodes as 000. */
  lemma EmptyFields()
    ensures DestBits("") == "000" && JumpBits("") == "000"
  {
  }

  /** `comp;jump` is read as `dest=comp;jump` with an empty destination. */
  lemma JumpCanonical(c: string, j: string)
    requires Plain(c) && Plain(j)
    ensures Canonical(c + ";" + j) == Canonical("" + "=" + c + ";" + j)
  {
    PlainLine("", c, j);
    CanonicalJump(c + ";" + j);
    CanonicalFull("" + "=" + c + ";" + j);
    assert "=" + (c + ";" + j) == "" + "=" + c + ";" + j;
  }

  /** `dest=comp` is read as `dest=comp;jump` with an empty jump. */
  lemma AssignCanonical(d: string, c: string)
    requires Plain(d) && Plain(c)
    ensures Canonical(d + "=" + c) == Canonical(d + "=" + c + ";" + "")
  {
    PlainLine(d, c, "");
    CanonicalAssign(d + "=" + c);
    CanonicalFull(d + "=" + c + ";" + "");
    assert d + "=" + c + ";" == d + "=" + c + ";" + "";
  }

  /** `comp;jump` has destination bits 000. */
  lemma JumpComputation(c: string, j: string)
    requires Plain(c) && Plain(j)
    ensures ComputationInstruction(c + ";" + j) == "111" + Show(CompBits(c)) + "000" + JumpBits(j)
  {
    JumpCanonical(c, j);
    FullComputation("", c, j);
    EmptyFields();
  }

  /** `dest=comp` has jump bits 000. */
  lemma AssignComputation(d: string, c: string)
    requires Plain(d) && Plain(c)
    ensures ComputationInstruction(d + "=" + c) == "111" + Show(CompBits(c)) + DestBits(d) + "000"
  {
    AssignCanonical(d, c);
    FullComputation(d, c, "");
    EmptyFields();
  }

  /** A line with neither `=` nor `;` is read as a destination with no
      computation, so the word carries the text "undefined". */
  lemma BareComputation(c: string)
    requires Plain(c)
    ensures ComputationInstruction(c) == "111" + "undefined" + DestBits(c) + "000"
  {
    assert Canonical(c) == c;
    SplitPiece(c, [], {'=', ';'});
    assert c + [] == c;
    var u := Show(Undefined);
    assert Show(CompBits(u)) == "undefined" by {
      assert CompBits("undefined") == Undefined;
    }
    assert JumpBits(u) == "000";
  }

  // ------------------------------------------------------------- lines

  datatype InstructionKind = AInstruction | CInstruction | LInstruction

  /** instruction_type: `/^[@].+$/`, then `/^\(.+\)$/`, else a computation. */
  function InstructionType(s: string): InstructionKind
  {
    if |s| >= 2 && s[0] == '@' && NoLineTerminator(s[1..]) then AInstruction
    else if |s| >= 3 && s[0] == '(' && s[|s| - 1] == ')' && NoLineTerminator(s[1..|s| - 1])
    then LInstruction
    else CInstruction
  }

  /** `@x` is an address and `(x)` a label for any one-line name `x`; a bare
      `@` or an empty `()` falls through to a computation. */
  lemma InstructionForms(x: string)
    requires x != "" && NoLineTerminator(x)
    ensures InstructionType("@" + x) == AInstruction
    ensures InstructionType("(" + x + ")") == LInstruction
    ensures InstructionType("@") == CInstruction && InstructionType("()") == CInstruction
  {
    assert ("@" + x)[1..] == x;
    var l := "(" + x + ")";
    assert l[0] == '(' && l[|l| - 1] == ')' && l[1..|l| - 1] == x;
  }

  predicate IsComment(s: string) { |s| >= 2 && s[..2] == "//" }

  /** parse_line: nothing for a blank, comment or label line; otherwise the
      word, or the error an address lookup throws. */
  function LineResult(st: AsmState, line: string): (Outcome<JsValue<string>>, AsmState)
    requires LineHalts(line)
  {
    if line == "" || IsComment(line) || InstructionType(line) == LInstruction then (Ok(Null), st)
    else if InstructionType(line) == AInstruction then
      var (r, st') := Address(st, line[1..]);
      (if r.Ok? then Ok(Defined(r.value)) else Error(r.code), st')
    else (Ok(Defined(ComputationInstruction(line))), st)
  }

  /** An address line's lookup ends. */
  predicate LineHalts(line: string)
  {
    InstructionType(line) == AInstruction ==> AddressHalts(line[1..])
  }

  /** Only address lines touch the state, and those only through the lookup. */
  lemma ParseLineState(st: AsmState, line: string)
    requires LineHalts(line)
    ensures LineResult(st, line).0 == Ok(Null) <==>
      line == "" || IsComment(line) || InstructionType(line) == LInstruction
    ensures LineResult(st, line).1 != st ==>
      InstructionType(line) == AInstruction && LineResult(st, line).1 == Address(st, line[1..]).1
  {
  }

  // ------------------------------------------------------------ pass 1

  /** One line of pass1: blank lines and comments are skipped; every other
      line is counted, with ROM_RANGE past MAX_ROM; a label not yet in the
      table is bound to the count before it and takes its count back. */
  function Pass1Line(st: AsmState, raw: string): (AsmState, Option<ErrorCode>)
  {
    var ins := Trim(raw);
    if ins == "" || IsComment(ins) then (st, None)
    else
      var count := st.lineCount + 1;
      if count > MAX_ROM then (st.(lineCount := count), Some(RomRange))
      else if InstructionType(ins) == LInstruction then
        var symbol := ins[1..|ins| - 1];
        if symbol !in st.symbols then
          (st.(symbols := st.symbols[symbol := count - 1], lineCount := count - 1), None)
        else (st.(lineCount := count), None)
      else (st.(lineCount := count), None)
  }

  /** pass1 over the rest of the lines from state st. */
  function Pass1Lines(st: AsmState, lines: seq<string>): (AsmState, Option<ErrorCode>)
    decreases |lines|
  {
    if lines == [] then (st, None)
    else
      var (st1, e) := Pass1Line(st, lines[0]);
      if e.Some? then (st1, e) else Pass1Lines(st1, lines[1..])
  }

  /** A line pass1 counts as an instruction, label lines included. */
  predicate Counted(raw: string)
  {
    var ins := Trim(raw);
    ins != "" && !IsComment(ins)
  }

  predicate IsLabel(raw: string)
  {
    Counted(raw) && InstructionType(Trim(raw)) == LInstruction
  }

  function LabelName(raw: string): string
    requires IsLabel(raw)
  {
    var ins := Trim(raw);
    ins[1..|ins| - 1]
  }

  /** The counted lines that are not labels. */
  function InstructionCount(lines: seq<string>): (n: nat)
    ensures n <= |lines|
  {
    if lines == [] then 0
    else (if Counted(lines[0]) && !IsLabel(lines[0]) then 1 else 0) + InstructionCount(lines[1..])
  }

  /** The labels of the program are new and distinct. */
  predicate FreshLabels(st: AsmState, lines: seq<string>)
  {
    && (forall k | 0 <= k < |lines| && IsLabel(lines[k]) :: LabelName(lines[k]) !in st.symbols)
    && (forall k, l | 0 <= k < l < |lines| && IsLabel(lines[k]) && IsLabel(lines[l]) ::
          LabelName(lines[k]) != LabelName(lines[l]))
  }

  /** One line of pass1: a counted line that is not a new label adds one to the
      count, a new label is bound to the count and adds nothing, and ROM_RANGE
      is thrown exactly when the count would pass MAX_ROM. */
  lemma Pass1LineCounts(st: AsmState, raw: string)
    ensures var (st', e) := Pass1Line(st, raw);
      && (!Counted(raw) ==> st' == st && e == None)
      && (Counted(raw) ==> (e == Some(RomRange) <==> st.lineCount + 1 > MAX_ROM))
      && (Counted(raw) && e == None && IsLabel(raw) && LabelName(raw) !in st.symbols ==>
            st' == st.(symbols := st.symbols[LabelName(raw) := st.lineCount]))
      && (Counted(raw) && !(IsLabel(raw) && LabelName(raw) !in st.symbols) ==>
            st' == st.(lineCount := st.lineCount + 1))
  {
  }

  /** The first line's share of the count before line k. */
  lemma CountBefore(lines: seq<string>, k: nat)
    requires 1 <= k <= |lines|
    ensures InstructionCount(lines[..k])
      == (if Counted(lines[0]) && !IsLabel(lines[0]) then 1 else 0) + InstructionCount(lines[1..][..k - 1])
  {
    assert lines[..k][0] == lines[0];
    assert lines[..k][1..] == lines[1..][..k - 1];
  }

  /** Labels that are new for st stay new after the first line. */
  lemma FreshLabelsRest(st: AsmState, lines: seq<string>)
    requires lines != [] && FreshLabels(st, lines)
    requires Pass1Line(st, lines[0]).1 == None
    ensures FreshLabels(Pass1Line(st, lines[0]).0, lines[1..])
  {
    var st1 := Pass1Line(st, lines[0]).0;
    var rest := lines[1..];
    Pass1LineCounts(st, lines[0]);
    forall k | 0 <= k < |rest| && IsLabel(rest[k])
      ensures LabelName(rest[k]) !in st1.symbols
    {
      assert rest[k] == lines[k + 1];
    }
    forall k, l | 0 <= k < l < |rest| && IsLabel(rest[k]) && IsLabel(rest[l])
      ensures LabelName(rest[k]) != LabelName(rest[l])
    {
      assert rest[k] == lines[k + 1] && rest[l] == lines[l + 1];
    }
  }

  /** With new, distinct labels and room in ROM, pass1 binds every label to the
      number of instructions before it, and ends with the instruction count. */
  lemma {:induction false} Pass1LabelAddresses(st: AsmState, lines: seq<string>)
    requires FreshLabels(st, lines)
    requires st.lineCount + |lines| <= MAX_ROM
    ensures Pass1Lines(st, lines).1 == None
    ensures Pass1Lines(st, lines).0.lineCount == st.lineCount + InstructionCount(lines)
    ensures Pass1Lines(st, lines).0.freeRam == st.freeRam
    ensures forall k | 0 <= k < |lines| && IsLabel(lines[k]) ::
      && LabelName(lines[k]) in Pass1Lines(st, lines).0.symbols
      && Pass1Lines(st, lines).0.symbols[LabelName(lines[k])] == st.lineCount + InstructionCount(lines[..k])
    ensures forall s | s in st.symbols ::
      s in Pass1Lines(st, lines).0.symbols && Pass1Lines(st, lines).0.symbols[s] == st.symbols[s]
    decreases |lines|
  {
    if lines != [] {
      var st1 := Pass1Line(st, lines[0]).0;
      Pass1LineCounts(st, lines[0]);
      var rest := lines[1..];
      FreshLabelsRest(st, lines);
      Pass1LabelAddresses(st1, rest);
      var st' := Pass1Lines(st1, rest).0;
      assert Pass1Lines(st, lines) == Pass1Lines(st1, rest);
      forall k | 0 <= k < |lines| && IsLabel(lines[k])
        ensures LabelName(lines[k]) in st'.symbols
        ensures st'.symbols[LabelName(lines[k])] == st.lineCount + InstructionCount(lines[..k])
      {
        if k == 0 {
          assert lines[..0] == [];
        } else {
          assert rest[k - 1] == lines[k];
          CountBefore(lines, k);
        }
      }
    }
  }

  // --------------------------------------------------------- the object

  /** The assembler's module-level state, updated in place. */
  class Assembler {
    var symbols: map<string, nat>
    var lineCount: nat
    var freeRam: nat

    /** SYMBOL_TABLE starts as the predefined symbols, line_count at 0 and
        free_ram_location at 16. */
    constructor ()
      ensures State() == Initial
    {
      symbols := Predefined;
      lineCount := 0;
      freeRam := 16;
    }

    function State(): AsmState
      reads this
    {
      AsmState(symbols, lineCount, freeRam)
    }

    /** p_address_instruction, writing SYMBOL_TABLE and free_ram_location. */
    method AddressInstruction(symbol: string) returns (r: Outcome<string>)
      requires AddressHalts(symbol)
      modifies this
      ensures (r, State()) == Address(old(State()), symbol)
    {
      if IsDigits(symbol) {
        // The loop's first `n > 0` turns the numeral into a double.
        var bits := DecimalToBinary(RoundToDouble(DecimalValue(symbol)).value);
        return Ok("0" + bits);
      }
      if symbol !in symbols {
        if freeRam > MAX_RAM {
          return Error(RamRange);
        }
        symbols := symbols[symbol := freeRam];
        freeRam := freeRam + 1;
      }
      var bits := DecimalToBinary(symbols[symbol]);
      r := Ok("0" + bits);
    }

    /** parse_line. */
    method ParseLine(line: string) returns (r: Outcome<JsValue<string>>)
      requires LineHalts(line)
      modifies this
      ensures (r, State()) == LineResult(old(State()), line)
    {
      var kind := InstructionType(line);
      if line == "" || IsComment(line) || kind == LInstruction {
        return Ok(Null);
      }
      if kind == AInstruction {
        var a := AddressInstruction(line[1..]);
        r := if a.Ok? then Ok(Defined(a.value)) else Error(a.code);
      } else {
        r := Ok(Defined(ComputationInstruction(line)));
      }
    }

    /** The body of pass1's loop for one raw line. */
    method Pass1Step(raw: string) returns (e: Option<ErrorCode>)
      modifies this
      ensures (State(), e) == Pass1Line(old(State()), raw)
    {
      var ins := Trim(raw);
      if ins == "" || IsComment(ins) {
        return None;
      }
      ghost var st := State();
      lineCount := lineCount + 1;
      if lineCount > MAX_ROM {
        return Some(RomRange);
      }
      var kind := InstructionType(ins);
      if kind == LInstruction {
        var symbol := ins[1..|ins| - 1];
        if symbol !in symbols {
          lineCount := lineCount - 1;
          symbols := symbols[symbol := lineCount];
          assert State() == st.(symbols := st.symbols[symbol := st.lineCount]);
        }
      }
      e := None;
    }

    /** pass1 over the program's lines: counts instructions and binds labels,
        stopping at the first error. */
    method Pass1(lines: seq<string>) returns (e: Option<ErrorCode>)
      modifies this
      ensures (State(), e) == Pass1Lines(old(State()), lines)
    {
      var i := 0;
      while i < |lines|
        invariant i <= |lines|
        invariant Pass1Lines(State(), lines[i..]) == Pass1Lines(old(State()), lines)
      {
        assert lines[i..][1..] == lines[i + 1..];
        e := Pass1Step(lines[i]);
        if e.Some? {
          return;
        }
        i := i + 1;
      }
      e := None;
    }
  }
}
