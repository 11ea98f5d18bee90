/**
  The pieces of JavaScript semantics that the modelled Node.js programs rely on:
  values that may be `undefined` or `null`, the white space of ECMA-262
  (what `\s`, `String.prototype.trim` and `Number()` skip), `trim`, `split`,
  `Array.prototype.join`, the printing and parsing of non-negative integers,
  and the loose comparison of a string with the number 0.
*/
module Js {

  /** A JavaScript value of type T, or one of the two absent values. */
  datatype JsValue<+T> = Defined(value: T) | Undefined | Null

  /** The JavaScript exceptions the modelled code can raise at run time. */
  datatype Exception =
    | ReferenceError(identifier: string)   // assignment to an undeclared name in strict code
    | TypeError(callee: string)            // call of a property that is not a function

  /** How a statement or call finishes: normally, or by throwing. */
  datatype Completion = Normal | Throw(exception: Exception)

  /** What `${v}` or `"..." + v` produces for a possibly absent string. */
  function Show(v: JsValue<string>): (r: string)
    ensures v.Defined? ==> r == v.value
    ensures v.Undefined? ==> r == "undefined"
  {
    match v
    case Defined(s) => s
    case Undefined => "undefined"
    case Null => "null"
  }

  /** WhiteSpace and LineTerminator code points of ECMA-262. */
  predicate IsWhiteSpace(c: char) {
    || c == '\t' || c == '\n' || c == '\U{B}' || c == '\U{C}' || c == '\r' || c == ' '
    || c == '\U{A0}' || c == '\U{1680}' || ('\U{2000}' <= c <= '\U{200A}')
    || c == '\U{2028}' || c == '\U{2029}' || c == '\U{202F}' || c == '\U{205F}'
    || c == '\U{3000}' || c == '\U{FEFF}'
  }

  /** The LineTerminator code points, which the regular-expression `.` does not match. */
  predicate IsLineTerminator(c: char) {
    c == '\n' || c == '\r' || c == '\U{2028}' || c == '\U{2029}'
  }

  predicate NoLineTerminator(s: string) {
    forall i | 0 <= i < |s| :: !IsLineTerminator(s[i])
  }

  predicate IsDigit(c: char) { '0' <= c <= '9' }

  /** The regular expression `/^[0-9]+$/`. */
  predicate IsDigits(s: string) {
    s != [] && forall i | 0 <= i < |s| :: IsDigit(s[i])
  }

  // ---------------------------------------------------------------- trim

  function TrimStart(s: string): (r: string)
    ensures |r| <= |s| && r == s[|s| - |r|..]
    ensures r == [] || !IsWhiteSpace(r[0])
    ensures forall i | 0 <= i < |s| - |r| :: IsWhiteSpace(s[i])
  {
    if s != [] && IsWhiteSpace(s[0]) then TrimStart(s[1..]) else s
  }

  function TrimEnd(s: string): (r: string)
    ensures |r| <= |s| && r == s[..|r|]
    ensures r == [] || !IsWhiteSpace(r[|r| - 1])
    ensures forall i | |r| <= i < |s| :: IsWhiteSpace(s[i])
  {
    if s != [] && IsWhiteSpace(s[|s| - 1]) then TrimEnd(s[..|s| - 1]) else s
  }

  /** `String.prototype.trim`: TrimStart and TrimEnd state what each half removes. */
  function Trim(s: string): (r: string)
  {
    TrimEnd(TrimStart(s))
  }

  /** `s.replace(/\s/g, "")`. */
  function RemoveWhiteSpace(s: string): (r: string)
    ensures |r| <= |s|
    ensures forall i | 0 <= i < |r| :: !IsWhiteSpace(r[i])
    ensures (forall i | 0 <= i < |s| :: !IsWhiteSpace(s[i])) ==> r == s
  {
    if s == [] then []
    else (if IsWhiteSpace(s[0]) then [] else [s[0]]) + RemoveWhiteSpace(s[1..])
  }

  // ------------------------------------------------------- split and join

  /** `s.split(sep)` where `sep` is a one-character string or a character class:
      the pieces between separators, always at least one. */
  function Split(s: string, seps: set<char>): (r: seq<string>)
    ensures |r| >= 1
  {
    if s == [] then [""]
    else if s[0] in seps then [""] + Split(s[1..], seps)
    else
      var rest := Split(s[1..], seps);
      [[s[0]] + rest[0]] + rest[1..]
  }

  predicate SeparatorFree(p: string, seps: set<char>)
  {
    forall i | 0 <= i < |p| :: p[i] !in seps
  }

  /** No piece of a split holds a separator. */
  lemma {:induction false} SplitPiecesHaveNoSeparators(s: string, seps: set<char>)
    ensures forall k | 0 <= k < |Split(s, seps)| :: SeparatorFree(Split(s, seps)[k], seps)
  {
    if s != [] {
      SplitPiecesHaveNoSeparators(s[1..], seps);
      var rest := Split(s[1..], seps);
      var r := Split(s, seps);
      if s[0] !in seps {
        assert r == [[s[0]] + rest[0]] + rest[1..];
        assert SeparatorFree(rest[0], seps);
        assert SeparatorFree(r[0], seps);
        forall k | 1 <= k < |r| ensures SeparatorFree(r[k], seps) {
          assert r[k] == rest[k];
        }
      } else {
        assert r == [""] + rest;
        forall k | 1 <= k < |r| ensures SeparatorFree(r[k], seps) {
          assert r[k] == rest[k - 1];
        }
      }
    }
  }

  /** `Array.prototype.join(sep)`. */
  function Join(pieces: seq<string>, sep: string): string
  {
    if pieces == [] then ""
    else if |pieces| == 1 then pieces[0]
    else pieces[0] + sep + Join(pieces[1..], sep)
  }

  /** Joining the pieces of a split with the separator gives the text back. */
  lemma {:induction false} JoinSplit(s: string, sep: char)
    ensures Join(Split(s, {sep}), [sep]) == s
  {
    if s != [] {
      JoinSplit(s[1..], sep);
      var rest := Split(s[1..], {sep});
      if s[0] != sep {
        if |rest| > 1 {
          assert Join(rest, [sep]) == rest[0] + [sep] + Join(rest[1..], [sep]);
          assert [[s[0]] + rest[0]] + rest[1..] == [[s[0]] + rest[0]] + rest[1..];
          assert Join([[s[0]] + rest[0]] + rest[1..], [sep])
              == ([s[0]] + rest[0]) + [sep] + Join(rest[1..], [sep]);
        }
      }
    }
  }

  /** Splitting a join of separator-free pieces gives the pieces back. */
  lemma {:induction false} SplitJoin(pieces: seq<string>, sep: char)
    requires |pieces| >= 1
    requires forall k | 0 <= k < |pieces| :: sep !in pieces[k]
    ensures Split(Join(pieces, [sep]), {sep}) == pieces
  {
    assert forall i | 0 <= i < |pieces[0]| :: pieces[0][i] !in {sep};
    if |pieces| == 1 {
      SplitPiece(pieces[0], [], {sep});
      assert pieces[0] + [] == pieces[0];
    } else {
      SplitJoin(pieces[1..], sep);
      var t := [sep] + Join(pieces[1..], [sep]);
      SplitPiece(pieces[0], t, {sep});
      assert t[1..] == Join(pieces[1..], [sep]);
      assert Join(pieces, [sep]) == pieces[0] + t;
      assert [pieces[0]] + pieces[1..] == pieces;
    }
  }

  /** A separator-free prefix glues onto the first piece of what follows it. */
  lemma {:induction false} SplitPiece(p: string, t: string, seps: set<char>)
    requires forall i | 0 <= i < |p| :: p[i] !in seps
    ensures t == [] ==> Split(p + t, seps) == [p]
    ensures t != [] && t[0] in seps ==>
      Split(p + t, seps) == [p] + Split(t[1..], seps)
  {
    if p == [] {
      assert p + t == t;
      if t != [] && t[0] in seps {
        assert Split(t, seps) == [""] + Split(t[1..], seps);
      }
    } else {
      SplitPiece(p[1..], t, seps);
      assert (p + t)[1..] == p[1..] + t;
      assert (p + t)[0] == p[0];
      if t == [] {
        assert Split(p + t, seps) == [[p[0]] + p[1..]];
        assert [p[0]] + p[1..] == p;
      } else if t[0] in seps {
        var rest := Split(p[1..] + t, seps);
        assert rest == [p[1..]] + Split(t[1..], seps);
        assert [p[0]] + p[1..] == p;
      }
    }
  }

  // ------------------------------------------------------------- numbers

  function DigitChar(d: nat): char
    requires d < 10
  {
    ['0', '1', '2', '3', '4', '5', '6', '7', '8', '9'][d]
  }

  /** The value of a string of decimal digits (what `Number(s)` gives for it). */
  function DecimalValue(s: string): nat
    requires forall i | 0 <= i < |s| :: IsDigit(s[i])
  {
    if s == [] then 0
    else
      var last := s[|s| - 1];
      assert IsDigit(last);
      10 * DecimalValue(s[..|s| - 1]) + (last as int - '0' as int)
  }

  /** `String(n)` for a non-negative integer: its shortest decimal numeral. */
  function NatToString(n: nat): (r: string)
    ensures IsDigits(r)
    ensures r[0] == '0' ==> r == "0"
  {
    if n < 10 then [DigitChar(n)] else NatToString(n / 10) + [DigitChar(n % 10)]
  }

  /** Reading back a printed number gives the number. */
  lemma {:induction false} NatToStringRoundTrip(n: nat)
    ensures DecimalValue(NatToString(n)) == n
  {
    var s := NatToString(n);
    if n >= 10 {
      NatToStringRoundTrip(n / 10);
      assert s[..|s| - 1] == NatToString(n / 10);
    }
  }

  /** Distinct numbers print as distinct strings. */
  lemma NatToStringInjective(n: nat, m: nat)
    requires n != m
    ensures NatToString(n) != NatToString(m)
  {
    NatToStringRoundTrip(n);
    NatToStringRoundTrip(m);
  }

  /** `Number(s) == 0`: after its own white-space trim, the string is empty,
      a non-decimal literal of zeros, or a decimal literal that rounds to zero. */
  predicate NumberIsZero(s: string)
  {
    var t := Trim(s);
    t == [] || RadixZero(t)
    || DecimalZero(if t[0] == '+' || t[0] == '-' then t[1..] else t)
  }

  /** `0x`, `0o` or `0b`, in either case, followed by zeros only: the
      non-decimal literals of value zero, which take no sign. */
  predicate RadixZero(t: string)
  {
    |t| >= 3 && t[0] == '0' && t[1] in "xXoObB" && forall i | 2 <= i < |t| :: t[i] == '0'
  }

  /** An unsigned decimal literal whose value rounds to the double zero: the
      value is 0, or it is at most 2^-1075, half the least positive double,
      which rounding to nearest with ties to even sends to 0. */
  predicate DecimalZero(u: string)
  {
    var k := ExponentMark(u);
    var m := u[..k];
    && IsMantissa(m)
    && (k == |u| || IsExponent(u[k + 1..]))
    && var d := DecimalValue(WithoutPoint(m));
       var x := (if k == |u| then 0 else ExponentValue(u[k + 1..])) - FractionLength(m);
       d == 0 || (x < 0 && d * Power(2, HalfLeastDoubleExponent) <= Power(10, -x))
  }

  /** The least positive double is 2^-1074; half of it is 2^-1075. */
  const HalfLeastDoubleExponent: nat := 1075

  /** The index of the first `e` or `E`, or the length when there is none. */
  function ExponentMark(s: string): (k: nat)
    ensures k <= |s| && (k < |s| ==> s[k] in "eE")
  {
    if s == [] || s[0] in "eE" then 0 else 1 + ExponentMark(s[1..])
  }

  /** Digits with at most one decimal point, and at least one digit. */
  predicate IsMantissa(m: string)
  {
    && m != [] && m != "."
    && (forall i | 0 <= i < |m| :: IsDigit(m[i]) || m[i] == '.')
    && (forall i, j | 0 <= i < j < |m| :: m[i] != '.' || m[j] != '.')
  }

  /** The digits of a mantissa, its point dropped. */
  function WithoutPoint(m: string): (r: string)
    requires forall i | 0 <= i < |m| :: IsDigit(m[i]) || m[i] == '.'
    ensures forall i | 0 <= i < |r| :: IsDigit(r[i])
  {
    if m == [] then []
    else (if m[0] == '.' then [] else [m[0]]) + WithoutPoint(m[1..])
  }

  /** How many digits follow the point. */
  function FractionLength(m: string): nat
  {
    if m == [] then 0 else if m[0] == '.' then |m| - 1 else FractionLength(m[1..])
  }

  /** What follows `e`: an optional sign and at least one digit. */
  predicate IsExponent(r: string)
  {
    IsDigits(if r != [] && (r[0] == '+' || r[0] == '-') then r[1..] else r)
  }

  function ExponentValue(r: string): int
    requires IsExponent(r)
  {
    if r[0] == '-' then -(DecimalValue(r[1..]) as int)
    else if r[0] == '+' then DecimalValue(r[1..])
    else DecimalValue(r)
  }

  function Power(b: nat, n: nat): (p: nat)
    ensures b >= 1 ==> p >= 1
  {
    if n == 0 then 1 else b * Power(b, n - 1)
  }

  /** A digit string has no exponent mark and no point. */
  lemma {:induction false} DigitsHaveNoMarks(s: string)
    requires forall i | 0 <= i < |s| :: IsDigit(s[i])
    ensures ExponentMark(s) == |s| && WithoutPoint(s) == s && FractionLength(s) == 0
    decreases |s|
  {
    if s != [] {
      assert forall i | 0 <= i < |s[1..]| :: IsDigit(s[1..][i]) by {
        forall i | 0 <= i < |s[1..]| ensures IsDigit(s[1..][i]) {
          assert s[1..][i] == s[i + 1];
        }
      }
      DigitsHaveNoMarks(s[1..]);
    }
  }

  /** Trimming leaves a string alone when neither end is white space. */
  lemma TrimKeeps(s: string)
    requires s != [] && !IsWhiteSpace(s[0]) && !IsWhiteSpace(s[|s| - 1])
    ensures Trim(s) == s
  {
    assert TrimStart(s) == s;
    assert TrimEnd(s) == s;
  }

  /** A digit string is a decimal literal of its own value, without exponent. */
  lemma DigitsDecimalZero(s: string)
    requires IsDigits(s)
    ensures DecimalZero(s) <==> DecimalValue(s) == 0
  {
    DigitsHaveNoMarks(s);
    assert s[..|s|] == s;
    assert IsMantissa(s);
  }

  /** For a plain numeral the loose test is the numeric one: `Number(s)` is
      zero exactly when the digits' value is. */
  lemma DigitsZeroTest(s: string)
    requires IsDigits(s)
    ensures NumberIsZero(s) <==> DecimalValue(s) == 0
  {
    assert IsDigit(s[0]) && IsDigit(s[|s| - 1]);
    TrimKeeps(s);
    assert !RadixZero(s) by {
      if |s| >= 3 {
        assert IsDigit(s[1]);
      }
    }
    DigitsDecimalZero(s);
  }

  /** `0x0`, `0b00`, `0O000` and the like read as zero. */
  lemma RadixZeroIsZero(t: string)
    requires RadixZero(t)
    ensures NumberIsZero(t)
  {
    assert t[|t| - 1] == '0';
    TrimKeeps(t);
  }

  /** A radix literal takes no sign: `-0x0` and `+0x0` are not numbers, so
      they are not zero. */
  lemma SignedRadixIsNotZero(t: string, sign: char)
    requires RadixZero(t) && (sign == '-' || sign == '+')
    ensures !NumberIsZero([sign] + t)
  {
    var s := [sign] + t;
    assert s[|s| - 1] == t[|t| - 1] == '0';
    TrimKeeps(s);
    assert s[1..] == t;
    assert !RadixZero(s);
    assert ExponentMark(t) == 1 + ExponentMark(t[1..]);
    assert ExponentMark(t[1..]) == 1 + ExponentMark(t[2..]);
    assert t[..ExponentMark(t)][1] == t[1];
  }

  /** Skipping digits moves the exponent mark by their number. */
  lemma {:induction false} ExponentMarkAfterDigits(z: string, r: string)
    requires forall i | 0 <= i < |z| :: IsDigit(z[i])
    ensures ExponentMark(z + r) == |z| + ExponentMark(r)
    decreases |z|
  {
    if z == [] {
      assert z + r == r;
    } else {
      assert (z + r)[0] == z[0] && IsDigit(z[0]);
      assert (z + r)[1..] == z[1..] + r;
      assert forall i | 0 <= i < |z[1..]| :: IsDigit(z[1..][i]) by {
        forall i | 0 <= i < |z[1..]| ensures IsDigit(z[1..][i]) {
          assert z[1..][i] == z[i + 1];
        }
      }
      ExponentMarkAfterDigits(z[1..], r);
    }
  }

  /** Zeros with an exponent, such as `0e5` or `00e12`, read as zero. */
  lemma ZeroWithExponent(z: string, e: string)
    requires IsDigits(z) && DecimalValue(z) == 0 && IsDigits(e)
    ensures NumberIsZero(z + "e" + e)
  {
    var u := z + "e" + e;
    assert u[0] == z[0] && u[|u| - 1] == e[|e| - 1];
    TrimKeeps(u);
    assert u == z + ("e" + e);
    ExponentMarkAfterDigits(z, "e" + e);
    DigitsHaveNoMarks(z);
    assert u[..|z|] == z && u[|z| + 1..] == e;
    assert IsMantissa(z);
    DecimalZeroOfParts(u, |z|);
    UnsignedDecimalZero(u);
  }

  /** A literal whose mantissa has value zero is zero, whatever its exponent. */
  lemma DecimalZeroOfParts(u: string, k: nat)
    requires k == ExponentMark(u) && IsMantissa(u[..k])
    requires k == |u| || IsExponent(u[k + 1..])
    requires DecimalValue(WithoutPoint(u[..k])) == 0
    ensures DecimalZero(u)
  {
  }

  /** A decimal literal that starts with a digit and rounds to zero is zero
      for `Number()` too. */
  lemma UnsignedDecimalZero(u: string)
    requires Trim(u) == u && u != [] && IsDigit(u[0]) && DecimalZero(u)
    ensures NumberIsZero(u)
  {
  }

  /** The loose inequality `v != 0` for a possibly absent string. */
  predicate LooseNotZero(v: JsValue<string>)
  {
    match v
    case Defined(s) => !NumberIsZero(s)
    case Undefined => true
    case Null => true
  }
}
