/**
  The Jack compiler's tokenizer (projects/11/JackCompiler/Tokenizer.js).

  A Tokenizer holds the whole source text `input`, a position `fp` and the
  last token read, `current`. `advance` first skips white space and comments
  (`trim`), then reads at most one token starting at `fp`:
  a symbol character, a maximal run of "number" characters, a quoted string,
  or a maximal run of identifier characters (a keyword when listed).
  `getLookAhead` runs `advance` and puts `fp` and `current` back.

  The loops of `trim` and `advance` are methods of the class, proved against
  the functions TrimFrom and ReadToken, which state what they compute.
*/
module CompilerTokenizer {
  import Js
  import JackUtil

  /** The object `current`: the token's type name (one of VALID_TOKENS, or "" when
      nothing was read) and its text. */
  datatype Token = Token(tokenType: string, token: string)

  /** What resetCurrentToken stores. */
  const NoToken := Token("", "")

  /** A field initialised to the empty string that later holds a token object. */
  datatype TokenSlot = EmptyString | TokenObject(t: Token)

  const SymbolType := JackUtil.TokenName(JackUtil.Symbol)
  const IdentifierType := JackUtil.TokenName(JackUtil.Identifier)
  const KeywordType := JackUtil.TokenName(JackUtil.Keyword)
  const StringType := JackUtil.TokenName(JackUtil.StringConst)
  const IntegerType := JackUtil.TokenName(JackUtil.IntConst)

  // ----------------------------------------------------- character classes

  /** isValidIdentifierChar: `/^[a-zA-Z0-9_]$/`. */
  predicate IsValidIdentifierChar(c: char) {
    ('a' <= c <= 'z') || ('A' <= c <= 'Z') || ('0' <= c <= '9') || c == '_'
  }

  /** isSymbol: membership of the one-character string in VALID_SYMBOLS, stated
      on the character (see JackUtil.SymbolCharactersMatch). */
  predicate IsSymbol(c: char) {
    c in JackUtil.SymbolCharacters
  }

  /** isString: `/^"$/`. */
  predicate IsString(c: char) {
    c == '"'
  }

  /** isNumber: `!isNaN(Number(c))`. Number() of a single character is a number
      exactly for a digit, and for a white-space character (whose trimmed text
      is empty, read as 0). */
  predicate IsNumber(c: char) {
    Js.IsDigit(c) || Js.IsWhiteSpace(c)
  }

  /** isWhiteSpace: the four characters the tokenizer skips. */
  predicate IsWhiteSpace(c: char) {
    c == ' ' || c == '\n' || c == '\t' || c == '\r'
  }

  /** The character tests above, by name. */
  datatype CharClass = WhiteSpaceChar | SymbolChar | NumberChar | StringChar | IdentifierChar

  predicate InClass(c: char, k: CharClass) {
    match k
    case WhiteSpaceChar => IsWhiteSpace(c)
    case SymbolChar => IsSymbol(c)
    case NumberChar => IsNumber(c)
    case StringChar => IsString(c)
    case IdentifierChar => IsValidIdentifierChar(c)
  }

  /** A test applied to `input[i]`, which is `undefined` past the end: every one
      of the tests rejects `undefined`. */
  predicate At(s: string, i: nat, k: CharClass) {
    i < |s| && InClass(s[i], k)
  }

  // ------------------------------------------------------------------ trim

  predicate WhiteSpaceAt(s: string, i: nat) {
    i < |s| && IsWhiteSpace(s[i])
  }

  /** The inner white-space loop of trim. */
  function SkipWhiteSpace(s: string, p: nat): (q: nat)
    requires p <= |s|
    ensures p <= q <= |s|
    ensures !WhiteSpaceAt(s, q)
    decreases |s| - p
  {
    if WhiteSpaceAt(s, p) then SkipWhiteSpace(s, p + 1) else p
  }

  predicate StartsLineComment(s: string, p: nat) {
    p + 1 < |s| && s[p] == '/' && s[p + 1] == '/'
  }

  predicate StartsBlockComment(s: string, p: nat) {
    p + 1 < |s| && s[p] == '/' && s[p + 1] == '*'
  }

  predicate ClosesBlockComment(s: string, i: nat) {
    i + 1 < |s| && s[i] == '*' && s[i + 1] == '/'
  }

  /** The line-comment loop: up to the next newline, which is not consumed, or the end. */
  function LineCommentEnd(s: string, p: nat): (q: nat)
    requires p <= |s|
    ensures p <= q <= |s|
    ensures q == |s| || s[q] == '\n'
    decreases |s| - p
  {
    if p < |s| && s[p] != '\n' then LineCommentEnd(s, p + 1) else p
  }

  /** The block-comment loop: just past the first `*` `/` pair, or, when there is
      none, the last character of the text (which is left unconsumed). */
  function BlockCommentEnd(s: string, p: nat): (q: nat)
    requires p <= |s|
    ensures p <= q <= |s|
    decreases |s| - p
  {
    if p + 1 < |s| then
      if s[p] == '*' && s[p + 1] == '/' then p + 2 else BlockCommentEnd(s, p + 1)
    else p
  }

  /** A block comment ends just past its first closing pair; an unclosed one
      stops short of the last character of the text. */
  lemma {:induction false} BlockCommentEndMeaning(s: string, p: nat)
    requires p <= |s|
    ensures var q := BlockCommentEnd(s, p);
      || (q >= p + 2 && ClosesBlockComment(s, q - 2)
          && forall i | p <= i < q - 2 :: !ClosesBlockComment(s, i))
      || (q == (if p + 1 < |s| then |s| - 1 else p)
          && forall i | p <= i < |s| :: !ClosesBlockComment(s, i))
    decreases |s| - p
  {
    if p + 1 < |s| && !(s[p] == '*' && s[p + 1] == '/') {
      BlockCommentEndMeaning(s, p + 1);
    }
  }

  /** Where trim leaves fp: it moves forward, stays within the text, and stops at
      the first character that is neither white space nor the start of a comment. */
  function TrimFrom(s: string, p: nat): (q: nat)
    requires p <= |s|
    ensures p <= q <= |s|
    ensures !WhiteSpaceAt(s, q) && !StartsLineComment(s, q) && !StartsBlockComment(s, q)
    decreases |s| - p
  {
    var q := SkipWhiteSpace(s, p);
    if StartsLineComment(s, q) then TrimFrom(s, LineCommentEnd(s, q + 2))
    else if StartsBlockComment(s, q) then TrimFrom(s, BlockCommentEnd(s, q + 2))
    else q
  }

  // The three ways a round of trim's outer loop can end.

  lemma TrimRoundLine(s: string, start: nat, q: nat, r: nat)
    requires start <= |s| && q == SkipWhiteSpace(s, start) && StartsLineComment(s, q)
    requires r == LineCommentEnd(s, q + 2)
    ensures TrimFrom(s, r) == TrimFrom(s, start)
  {
  }

  lemma TrimRoundBlock(s: string, start: nat, q: nat, r: nat)
    requires start <= |s| && q == SkipWhiteSpace(s, start)
    requires !StartsLineComment(s, q) && StartsBlockComment(s, q)
    requires r == BlockCommentEnd(s, q + 2)
    ensures TrimFrom(s, r) == TrimFrom(s, start)
  {
  }

  lemma TrimRoundEnd(s: string, start: nat, q: nat)
    requires start <= |s| && q == SkipWhiteSpace(s, start)
    requires !StartsLineComment(s, q) && !StartsBlockComment(s, q)
    ensures TrimFrom(s, start) == q
  {
  }

  // --------------------------------------------------------------- advance

  /** The end of the maximal run of class-k characters that starts at p. */
  function RunEnd(s: string, p: nat, k: CharClass): (e: nat)
    requires p <= |s|
    ensures p <= e <= |s|
    ensures !At(s, e, k)
    decreases |s| - p
  {
    if At(s, p, k) then RunEnd(s, p + 1, k) else p
  }

  /** The first quote at or after p, or the end of the text when there is none. */
  function NextQuote(s: string, p: nat): (e: nat)
    requires p <= |s|
    ensures p <= e <= |s|
    ensures e < |s| ==> s[e] == '"'
    decreases |s| - p
  {
    if p == |s| || s[p] == '"' then p else NextQuote(s, p + 1)
  }

  /** Trim's white-space loop passes over white space only. */
  lemma {:induction false} SkipWhiteSpaceMeaning(s: string, p: nat)
    requires p <= |s|
    ensures forall i | p <= i < SkipWhiteSpace(s, p) :: IsWhiteSpace(s[i])
    decreases |s| - p
  {
    if WhiteSpaceAt(s, p) {
      SkipWhiteSpaceMeaning(s, p + 1);
    }
  }

  /** A line comment runs up to, not over, the first newline. */
  lemma {:induction false} LineCommentEndMeaning(s: string, p: nat)
    requires p <= |s|
    ensures forall i | p <= i < LineCommentEnd(s, p) :: s[i] != '\n'
    decreases |s| - p
  {
    if p < |s| && s[p] != '\n' {
      LineCommentEndMeaning(s, p + 1);
    }
  }

  /** The number and word loops of advance pass over characters of their class only. */
  lemma {:induction false} RunEndMeaning(s: string, p: nat, k: CharClass)
    requires p <= |s|
    ensures forall i | p <= i < RunEnd(s, p, k) :: InClass(s[i], k)
    decreases |s| - p
  {
    if At(s, p, k) {
      RunEndMeaning(s, p + 1, k);
    }
  }

  /** The string loop of advance stops at the first quote. */
  lemma {:induction false} NextQuoteMeaning(s: string, p: nat)
    requires p <= |s|
    ensures forall i | p <= i < NextQuote(s, p) :: s[i] != '"'
    decreases |s| - p
  {
    if p < |s| && s[p] != '"' {
      NextQuoteMeaning(s, p + 1);
    }
  }

  /** The string loop has no end-of-text guard: a quote at p needs a closing quote. */
  predicate StringClosed(s: string, p: nat) {
    p < |s| && s[p] == '"' ==> NextQuote(s, p + 1) < |s|
  }

  /** What advance reads at p once trim is done: the new `current` and the new fp. */
  function ReadToken(s: string, p: nat): (Token, nat)
    requires p <= |s| && StringClosed(s, p)
  {
    if At(s, p, SymbolChar) then (Token(SymbolType, [s[p]]), p + 1)
    else if At(s, p, NumberChar) then
      var e := RunEnd(s, p, NumberChar);
      (Token(IntegerType, s[p..e]), e)
    else if At(s, p, StringChar) then
      var e := NextQuote(s, p + 1);
      (Token(StringType, s[p + 1..e]), e + 1)
    else if At(s, p, IdentifierChar) then
      var e := RunEnd(s, p, IdentifierChar);
      var w := s[p..e];
      (Token(if w in JackUtil.ValidKeywords then KeywordType else IdentifierType, w), e)
    else (NoToken, p)
  }

  /** A call of advance from fp can finish: the string it may start is closed. */
  predicate CanAdvance(s: string, fp: nat) {
    fp <= |s| && StringClosed(s, TrimFrom(s, fp))
  }

  /** advance from fp: trim, then read one token. */
  function Scan(s: string, fp: nat): (Token, nat)
    requires CanAdvance(s, fp)
  {
    ReadToken(s, TrimFrom(s, fp))
  }

  /** A symbol token is its one character. */
  lemma ReadSymbolMeaning(s: string, p: nat)
    requires p <= |s| && StringClosed(s, p)
    requires At(s, p, SymbolChar)
    ensures var (t, q) := ReadToken(s, p);
      t.tokenType == SymbolType && q == p + 1 && t.token == s[p..q]
  {
  }

  /** An integer token is the maximal run of number characters at p. */
  lemma ReadIntegerMeaning(s: string, p: nat)
    requires p <= |s| && StringClosed(s, p)
    requires !At(s, p, SymbolChar) && At(s, p, NumberChar)
    ensures var (t, q) := ReadToken(s, p);
      && t.tokenType == IntegerType && p < q <= |s| && t.token == s[p..q]
      && (forall i | 0 <= i < |t.token| :: IsNumber(t.token[i]))
      && !At(s, q, NumberChar)
  {
    RunEndMeaning(s, p, NumberChar);
  }

  /** A string token is the text strictly between its quotes, which holds no quote. */
  lemma ReadStringMeaning(s: string, p: nat)
    requires p <= |s| && StringClosed(s, p)
    requires At(s, p, StringChar)
    ensures var (t, q) := ReadToken(s, p);
      && t.tokenType == StringType && p + 2 <= q <= |s|
      && s[p..q] == "\"" + t.token + "\"" && '"' !in t.token
  {
    var e := NextQuote(s, p + 1);
    NextQuoteMeaning(s, p + 1);
    assert !IsSymbol('"') && !IsNumber('"');
    assert s[p..e + 1] == "\"" + s[p + 1..e] + "\"";
  }

  /** A word token is the maximal identifier-character run at p, and it is a
      keyword exactly when VALID_KEYWORDS lists it. */
  lemma ReadWordMeaning(s: string, p: nat)
    requires p <= |s| && StringClosed(s, p)
    requires !At(s, p, SymbolChar) && !At(s, p, NumberChar) && At(s, p, IdentifierChar)
    ensures var (t, q) := ReadToken(s, p);
      && (t.tokenType == KeywordType <==> t.token in JackUtil.ValidKeywords)
      && (t.tokenType == KeywordType || t.tokenType == IdentifierType)
      && p < q <= |s| && t.token == s[p..q]
      && (forall i | 0 <= i < |t.token| :: IsValidIdentifierChar(t.token[i]))
      && !At(s, q, IdentifierChar)
  {
    RunEndMeaning(s, p, IdentifierChar);
  }

  /** A character of no class (or the end of the text) gives the empty token and
      leaves the position where it was. */
  lemma ReadNothingMeaning(s: string, p: nat)
    requires p <= |s| && StringClosed(s, p)
    requires !At(s, p, SymbolChar) && !At(s, p, NumberChar) && !At(s, p, StringChar)
    requires !At(s, p, IdentifierChar)
    ensures ReadToken(s, p) == (NoToken, p)
  {
  }

  /** A run that is known to end at e is what RunEnd finds. */
  lemma {:induction false} RunEndOfRun(s: string, p: nat, e: nat, k: CharClass)
    requires p <= e <= |s|
    requires forall i | p <= i < e :: InClass(s[i], k)
    requires !At(s, e, k)
    ensures RunEnd(s, p, k) == e
    decreases e - p
  {
    if p < e {
      RunEndOfRun(s, p + 1, e, k);
    }
  }

  /** Because `isNumber` accepts white space, an integer token runs on through
      blanks: `12 ;` reads as the integer token `12 ` followed by `;`. */
  lemma IntegerRunAbsorbsWhiteSpace()
    ensures ReadToken("12 ;", 0) == (Token(IntegerType, "12 "), 3)
  {
    var s := "12 ;";
    assert !IsSymbol(s[0]) && IsNumber(s[0]);
    assert IsNumber(s[1]) && IsNumber(s[2]) && !IsNumber(s[3]);
    RunEndOfRun(s, 0, 3, NumberChar);
    assert s[0..3] == "12 ";
  }

  /** A word of lower-case letters, followed by a character that cannot continue
      it, reads as that word: a keyword when listed, else an identifier. */
  lemma LowerCaseWordReads(w: string, rest: string)
    requires JackUtil.IsLowerCaseWord(w)
    requires rest == [] || !IsValidIdentifierChar(rest[0])
    ensures ReadToken(w + rest, 0) ==
      (Token(if w in JackUtil.ValidKeywords then KeywordType else IdentifierType, w), |w|)
  {
    var s := w + rest;
    assert s[0] == w[0] && JackUtil.IsLowerCaseLetter(s[0]);
    assert !IsSymbol(s[0]) && !IsNumber(s[0]) && !IsString(s[0]);
    assert !At(s, |w|, IdentifierChar) by {
      if |w| < |s| {
        assert s[|w|] == rest[0];
      }
    }
    RunEndOfRun(s, 0, |w|, IdentifierChar);
    assert s[0..|w|] == w;
  }

  /** Every keyword, followed by a character that cannot continue a word, reads
      as that keyword: keywords are word runs told apart from identifiers only by
      their membership in VALID_KEYWORDS. */
  lemma KeywordsReadAsKeywords(w: string, rest: string)
    requires w in JackUtil.ValidKeywords
    requires rest == [] || !IsValidIdentifierChar(rest[0])
    ensures ReadToken(w + rest, 0) == (Token(KeywordType, w), |w|)
  {
    JackUtil.KeywordsAreLowerCaseWords();
    LowerCaseWordReads(w, rest);
  }

  /** The tokenizer object. */
  class Tokenizer {
    var input: string
    var fp: nat
    var current: Token
    var lookAheadToken: TokenSlot

    ghost predicate Valid()
      reads this
    {
      fp <= |input|
    }

    /** The constructor after reading the file: at the start, with an empty token. */
    constructor (text: string)
      ensures Valid()
      ensures input == text && fp == 0 && current == NoToken && lookAheadToken == EmptyString
    {
      input := text;
      fp := 0;
      current := NoToken;
      lookAheadToken := EmptyString;
    }

    /** hasMoreTokens. */
    function HasMoreTokens(): (r: bool)
      reads this
      ensures r <==> fp < |input|
    {
      fp < |input|
    }

    /** tokenType. */
    function TokenType(): (r: string)
      reads this
      ensures r == current.tokenType
    {
      current.tokenType
    }

    /** The typed getters: the token's text when its type is the asked-for one, else null. */
    function Typed(tokenType: string): (r: Js.JsValue<string>)
      reads this
      ensures r.Defined? <==> current.tokenType == tokenType
      ensures r.Defined? ==> r.value == current.token
      ensures !r.Defined? ==> r.Null?
    {
      if current.tokenType == tokenType then Js.Defined(current.token) else Js.Null
    }

    function GetKeyword(): Js.JsValue<string> reads this { Typed(KeywordType) }
    function GetIdentifier(): Js.JsValue<string> reads this { Typed(IdentifierType) }
    function GetSymbol(): Js.JsValue<string> reads this { Typed(SymbolType) }
    function GetStringVal(): Js.JsValue<string> reads this { Typed(StringType) }
    function GetIntVal(): Js.JsValue<string> reads this { Typed(IntegerType) }

    /** trim. */
    method Trim()
      requires Valid()
      modifies this`fp
      ensures Valid() && fp == TrimFrom(input, old(fp))
    {
      while true
        invariant old(fp) <= fp <= |input|
        invariant TrimFrom(input, fp) == TrimFrom(input, old(fp))
        decreases |input| - fp
      {
        ghost var start := fp;
        SkipWhiteSpaceLoop();
        ghost var q := fp;
        if StartsLineComment(input, fp) {
          fp := fp + 2;
          LineCommentLoop();
          TrimRoundLine(input, start, q, fp);
        } else if StartsBlockComment(input, fp) {
          fp := fp + 2;
          BlockCommentLoop();
          TrimRoundBlock(input, start, q, fp);
        } else {
          TrimRoundEnd(input, start, q);
          break;
        }
      }
    }

    /** The white-space loop of trim. */
    method SkipWhiteSpaceLoop()
      requires Valid()
      modifies this`fp
      ensures Valid() && fp == SkipWhiteSpace(input, old(fp))
    {
      while WhiteSpaceAt(input, fp)
        invariant old(fp) <= fp <= |input|
        invariant SkipWhiteSpace(input, fp) == SkipWhiteSpace(input, old(fp))
        decreases |input| - fp
      {
        fp := fp + 1;
      }
    }

    /** The line-comment loop of trim, entered past the opening slashes. */
    method LineCommentLoop()
      requires Valid()
      modifies this`fp
      ensures Valid() && fp == LineCommentEnd(input, old(fp))
    {
      while fp < |input| && input[fp] != '\n'
        invariant old(fp) <= fp <= |input|
        invariant LineCommentEnd(input, fp) == LineCommentEnd(input, old(fp))
        decreases |input| - fp
      {
        fp := fp + 1;
      }
    }

    /** The block-comment loop of trim, entered past the opener. */
    method BlockCommentLoop()
      requires Valid()
      modifies this`fp
      ensures Valid() && fp == BlockCommentEnd(input, old(fp))
    {
      while fp < |input| - 1
        invariant old(fp) <= fp <= |input|
        invariant BlockCommentEnd(input, fp) == BlockCommentEnd(input, old(fp))
        decreases |input| - fp
      {
        if input[fp] == '*' && input[fp + 1] == '/' {
          fp := fp + 2;
          break;
        }
        fp := fp + 1;
      }
    }

    /** advance: trim, reset `current`, then read at most one token. */
    method Advance()
      requires Valid() && CanAdvance(input, fp)
      modifies this`fp, this`current
      ensures Valid()
      ensures (current, fp) == Scan(input, old(fp))
    {
      Trim();
      current := NoToken;
      if At(input, fp, SymbolChar) {
        current := current.(token := [input[fp]], tokenType := SymbolType);
        fp := fp + 1;
      } else if At(input, fp, NumberChar) {
        ReadInteger();
      } else if At(input, fp, StringChar) {
        ReadString();
      } else if At(input, fp, IdentifierChar) {
        ReadWord();
      }
    }

    /** The integer branch of advance. */
    method ReadInteger()
      requires Valid() && current == NoToken
      requires !At(input, fp, SymbolChar) && At(input, fp, NumberChar)
      modifies this`fp, this`current
      ensures Valid() && (current, fp) == ReadToken(input, old(fp))
    {
      while At(input, fp, NumberChar)
        invariant old(fp) <= fp <= |input|
        invariant RunEnd(input, fp, NumberChar) == RunEnd(input, old(fp), NumberChar)
        invariant current == Token("", input[old(fp)..fp])
        decreases |input| - fp
      {
        current := current.(token := current.token + [input[fp]]);
        fp := fp + 1;
      }
      current := current.(tokenType := IntegerType);
    }

    /** The string branch of advance: the quotes are consumed but not kept. */
    method ReadString()
      requires Valid() && current == NoToken
      requires At(input, fp, StringChar) && StringClosed(input, fp)
      modifies this`fp, this`current
      ensures Valid() && (current, fp) == ReadToken(input, old(fp))
    {
      assert !IsSymbol('"') && !IsNumber('"');
      fp := fp + 1;
      while !At(input, fp, StringChar)
        invariant old(fp) + 1 <= fp <= |input|
        invariant NextQuote(input, fp) == NextQuote(input, old(fp) + 1) < |input|
        invariant current == Token("", input[old(fp) + 1..fp])
        decreases |input| - fp
      {
        current := current.(token := current.token + [input[fp]]);
        fp := fp + 1;
      }
      current := current.(tokenType := StringType);
      fp := fp + 1;
    }

    /** The word branch of advance: a keyword when listed, else an identifier. */
    method ReadWord()
      requires Valid() && current == NoToken
      requires !At(input, fp, SymbolChar) && !At(input, fp, NumberChar) && !At(input, fp, StringChar)
      requires At(input, fp, IdentifierChar)
      modifies this`fp, this`current
      ensures Valid() && (current, fp) == ReadToken(input, old(fp))
    {
      while At(input, fp, IdentifierChar)
        invariant old(fp) <= fp <= |input|
        invariant RunEnd(input, fp, IdentifierChar) == RunEnd(input, old(fp), IdentifierChar)
        invariant current == Token("", input[old(fp)..fp])
        decreases |input| - fp
      {
        current := current.(token := current.token + [input[fp]]);
        fp := fp + 1;
      }
      if current.token in JackUtil.ValidKeywords {
        current := current.(tokenType := KeywordType);
      } else {
        current := current.(tokenType := IdentifierType);
      }
    }

    /** getLookAhead: the token the next advance would read, with fp and current
        put back as they were. */
    method GetLookAhead() returns (t: Token)
      requires Valid() && CanAdvance(input, fp)
      modifies this`fp, this`current, this`lookAheadToken
      ensures Valid()
      ensures fp == old(fp) && current == old(current) && lookAheadToken == TokenObject(t)
      ensures t == Scan(input, fp).0
    {
      var fpBackup := fp;
      var currentBackup := current;
      Advance();
      lookAheadToken := TokenObject(current);
      fp := fpBackup;
      current := currentBackup;
      t := lookAheadToken.t;
    }
  }
}
