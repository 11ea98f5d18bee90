/**
  The Jack analyzer's tokenizer (projects/10/JackAnalyzer/Tokenizer.js), the
  earlier generation of the compiler's tokenizer.

  Its `advance` handles one item per call: one white-space character, one
  comment, or one token. Unlike the compiler's version it neither guards the
  comment loops against the end of the text nor leaves `fp` in place on a
  character of no class, and its typed getters compare `current.type` with a
  property of the keyword array that does not exist.

  The character tests and the run functions are the ones of the compiler's
  tokenizer, whose symbol and keyword lists equal this file's own lists.
*/
module AnalyzerTokenizer {
  import Js
  import JackUtil
  import opened CompilerTokenizer

  /** allowed_symbols. */
  const AllowedSymbols: seq<string> :=
    ["{", "}", "(", ")", "[", "]", ".", ",", ";", "+", "-", "*", "/", "&", "|", "<", ">", "=", "~"]

  /** allowed_keywords. */
  const AllowedKeywords: seq<string> :=
    ["class", "method", "function", "constructor", "int", "boolean", "char", "void", "var",
     "static", "field", "let", "do", "if", "else", "while", "return", "true", "false", "null", "this"]

  /** The analyzer's lists are the compiler's VALID_SYMBOLS and VALID_KEYWORDS, so
      the two generations classify characters and words alike. */
  lemma ListsMatchCompiler()
    ensures AllowedSymbols == JackUtil.ValidSymbols
    ensures AllowedKeywords == JackUtil.ValidKeywords
  {
  }

  // allowed_tokens: the type names this generation writes.
  const SymbolName := "SYMBOL"
  const IdentifierName := "IDENTIFIER"
  const KeywordName := "KEYWORD"
  const StringName := "STRING_CONST"
  const IntegerName := "INT_CONST"

  /** getXmlSymbol: the XML escape of the four characters XML reserves. */
  function XmlSymbol(c: char): (r: string)
    ensures c !in "<>&\"" ==> r == [c]
    ensures '<' !in r && '>' !in r && '"' !in r
  {
    match c
    case '<' => "&lt;"
    case '>' => "&gt;"
    case '&' => "&amp;"
    case '"' => "&quot;"
    case _ => [c]
  }

  /** What an XML reader makes of one escaped symbol. */
  function XmlUnescape(r: string): string
  {
    if r == "&lt;" then "<"
    else if r == "&gt;" then ">"
    else if r == "&amp;" then "&"
    else if r == "&quot;" then "\""
    else r
  }

  /** Escaping loses nothing: every character is read back as itself, and only the
      four reserved characters change. */
  lemma XmlSymbolRoundTrip(c: char)
    ensures XmlUnescape(XmlSymbol(c)) == [c]
    ensures XmlSymbol(c) != [c] <==> c in "<>&\""
  {
  }

  // --------------------------------------------------------------- advance

  /** The first `*` `/` pair at or after p, or the end of the text when there is none. */
  function CloseIndex(s: string, p: nat): (e: nat)
    requires p <= |s|
    ensures p <= e <= |s|
    ensures e < |s| ==> ClosesBlockComment(s, e)
    decreases |s| - p
  {
    if p + 1 >= |s| then |s|
    else if ClosesBlockComment(s, p) then p
    else CloseIndex(s, p + 1)
  }

  /** The block-comment loop stops at the first closing pair. */
  lemma {:induction false} CloseIndexMeaning(s: string, p: nat)
    requires p <= |s|
    ensures forall i | p <= i < CloseIndex(s, p) :: !ClosesBlockComment(s, i)
    decreases |s| - p
  {
    if p + 1 < |s| && !ClosesBlockComment(s, p) {
      CloseIndexMeaning(s, p + 1);
    }
  }

  /** The loops of advance have no end-of-text guard: a comment needs its
      terminator, and a string its closing quote. */
  predicate CanStep(s: string, fp: nat) {
    if WhiteSpaceAt(s, fp) then true
    else if StartsLineComment(s, fp) then LineCommentEnd(s, fp + 2) < |s|
    else if StartsBlockComment(s, fp) then CloseIndex(s, fp + 2) < |s|
    else StringClosed(s, fp)
  }

  /** The token branch of advance: the new `current` and the new fp. Past the
      end of the text, or on a character of no class, the token is empty and fp
      moves on by one. */
  function ReadItem(s: string, p: nat): (Token, nat)
    requires StringClosed(s, p)
  {
    if At(s, p, SymbolChar) then (Token(SymbolName, [s[p]]), p + 1)
    else if At(s, p, NumberChar) then
      var e := RunEnd(s, p, NumberChar);
      (Token(IntegerName, s[p..e]), e)
    else if At(s, p, StringChar) then
      var e := NextQuote(s, p + 1);
      (Token(StringName, s[p + 1..e]), e + 1)
    else if At(s, p, IdentifierChar) then
      var e := RunEnd(s, p, IdentifierChar);
      var w := s[p..e];
      (Token(if w in AllowedKeywords then KeywordName else IdentifierName, w), e)
    else (NoToken, p + 1)
  }

  /** One call of advance: the new `current` and the new fp. */
  function Step(s: string, fp: nat, current: TokenSlot): (TokenSlot, nat)
    requires CanStep(s, fp)
  {
    if WhiteSpaceAt(s, fp) then (current, fp + 1)
    else if StartsLineComment(s, fp) then (current, LineCommentEnd(s, fp + 2))
    else if StartsBlockComment(s, fp) then (current, CloseIndex(s, fp + 2) + 2)
    else
      var (t, q) := ReadItem(s, fp);
      (TokenObject(t), q)
  }

  /** A white-space character is passed over alone; `current` is kept. */
  lemma StepWhiteSpace(s: string, fp: nat, current: TokenSlot)
    requires WhiteSpaceAt(s, fp)
    ensures CanStep(s, fp) && Step(s, fp, current) == (current, fp + 1)
  {
  }

  /** A line comment is passed over up to its newline, which is left for the next
      call; `current` is kept. */
  lemma StepLineComment(s: string, fp: nat, current: TokenSlot)
    requires !WhiteSpaceAt(s, fp) && StartsLineComment(s, fp) && CanStep(s, fp)
    ensures var (c, q) := Step(s, fp, current);
      && c == current && fp + 2 <= q < |s| && s[q] == '\n'
      && forall i | fp + 2 <= i < q :: s[i] != '\n'
  {
    LineCommentEndMeaning(s, fp + 2);
  }

  /** A block comment is passed over through the first closing pair after its
      opener; `current` is kept. */
  lemma StepBlockComment(s: string, fp: nat, current: TokenSlot)
    requires !WhiteSpaceAt(s, fp) && !StartsLineComment(s, fp) && StartsBlockComment(s, fp)
    requires CanStep(s, fp)
    ensures var (c, q) := Step(s, fp, current);
      && c == current && fp + 4 <= q <= |s| && ClosesBlockComment(s, q - 2)
      && forall i | fp + 2 <= i < q - 2 :: !ClosesBlockComment(s, i)
  {
    CloseIndexMeaning(s, fp + 2);
  }

  /** Any other position yields a token object: a one-character symbol, or the
      empty token for a character of no class (or the end of the text); both
      move fp on by exactly one. */
  lemma StepShortTokens(s: string, fp: nat, current: TokenSlot)
    requires !WhiteSpaceAt(s, fp) && !StartsLineComment(s, fp) && !StartsBlockComment(s, fp)
    requires CanStep(s, fp)
    requires At(s, fp, SymbolChar) || (!At(s, fp, NumberChar) && !At(s, fp, StringChar) && !At(s, fp, IdentifierChar))
    ensures var (c, q) := Step(s, fp, current);
      && q == fp + 1
      && (At(s, fp, SymbolChar) ==> c == TokenObject(Token(SymbolName, [s[fp]])))
      && (!At(s, fp, SymbolChar) ==> c == TokenObject(NoToken))
  {
  }

  /** An integer token is the maximal run of number characters, white space included. */
  lemma StepInteger(s: string, fp: nat, current: TokenSlot)
    requires !WhiteSpaceAt(s, fp) && !StartsLineComment(s, fp) && !StartsBlockComment(s, fp)
    requires CanStep(s, fp) && !At(s, fp, SymbolChar) && At(s, fp, NumberChar)
    ensures var (c, q) := Step(s, fp, current);
      && fp < q <= |s| && c == TokenObject(Token(IntegerName, s[fp..q]))
      && (forall i | fp <= i < q :: IsNumber(s[i]))
      && !At(s, q, NumberChar)
  {
    RunEndMeaning(s, fp, NumberChar);
  }

  /** A string token is the text between its quotes; fp ends past the closing one. */
  lemma StepString(s: string, fp: nat, current: TokenSlot)
    requires !WhiteSpaceAt(s, fp) && !StartsLineComment(s, fp) && !StartsBlockComment(s, fp)
    requires CanStep(s, fp) && At(s, fp, StringChar)
    ensures var (c, q) := Step(s, fp, current);
      && c.TokenObject? && c.t.tokenType == StringName
      && fp + 2 <= q <= |s| && s[fp..q] == "\"" + c.t.token + "\"" && '"' !in c.t.token
  {
    var e := NextQuote(s, fp + 1);
    NextQuoteMeaning(s, fp + 1);
    assert !IsSymbol('"') && !IsNumber('"');
    assert s[fp..e + 1] == "\"" + s[fp + 1..e] + "\"";
  }

  /** A word is the maximal identifier-character run: KEYWORD exactly when
      allowed_keywords lists it, IDENTIFIER otherwise. */
  lemma StepWord(s: string, fp: nat, current: TokenSlot)
    requires !WhiteSpaceAt(s, fp) && !StartsLineComment(s, fp) && !StartsBlockComment(s, fp)
    requires CanStep(s, fp) && !At(s, fp, SymbolChar) && !At(s, fp, NumberChar)
    requires At(s, fp, IdentifierChar)
    ensures var (c, q) := Step(s, fp, current);
      && c.TokenObject? && fp < q <= |s| && c.t.token == s[fp..q]
      && (c.t.tokenType == KeywordName <==> c.t.token in AllowedKeywords)
      && (c.t.tokenType == KeywordName || c.t.tokenType == IdentifierName)
      && (forall i | fp <= i < q :: IsValidIdentifierChar(s[i]))
      && !At(s, q, IdentifierChar)
  {
    RunEndMeaning(s, fp, IdentifierChar);
  }

  /** tokenType: `current.type`, undefined while `current` is still the empty string. */
  function TypeOfCurrent(current: TokenSlot): (r: Js.JsValue<string>)
    ensures current.TokenObject? ==> r == Js.Defined(current.t.tokenType)
    ensures current.EmptyString? ==> r.Undefined?
  {
    match current
    case EmptyString => Js.Undefined
    case TokenObject(t) => Js.Defined(t.tokenType)
  }

  /** The typed getters: `current.type == allowed_keywords.X ? current.token : null`.
      The right-hand side is always undefined, so the test holds only while
      `current.type` is undefined too, that is while `current` is the empty
      string, whose `token` is undefined as well. */
  function GetterValue(current: TokenSlot): (r: Js.JsValue<string>)
  {
    match current
    case EmptyString => Js.Undefined
    case TokenObject(_) => Js.Null
  }

  /** No getter ever yields a token's text: undefined before the first token,
      null from the first token on, whatever later calls of advance read. */
  lemma {:induction false} GettersNeverYieldText(s: string, fp: nat, current: TokenSlot)
    requires CanStep(s, fp)
    ensures !GetterValue(current).Defined?
    ensures var (c, _) := Step(s, fp, current);
      (current.TokenObject? || !(WhiteSpaceAt(s, fp) || StartsLineComment(s, fp) || StartsBlockComment(s, fp)))
        ==> GetterValue(c) == Js.Null
  {
  }

  /** The analyzer's tokenizer object. */
  class Tokenizer {
    var input: string
    var fp: nat
    var current: TokenSlot

    /** After processFiles has read the text: at its start, `current` still the empty string. */
    constructor (text: string)
      ensures input == text && fp == 0 && current == EmptyString
    {
      input := text;
      fp := 0;
      current := EmptyString;
    }

    /** hasMoreTokens. */
    function HasMoreTokens(): (r: bool)
      reads this
      ensures r <==> fp < |input|
    {
      fp < |input|
    }

    function TokenType(): Js.JsValue<string> reads this { TypeOfCurrent(current) }
    function GetKeyword(): Js.JsValue<string> reads this { GetterValue(current) }
    function GetIdentifier(): Js.JsValue<string> reads this { GetterValue(current) }
    function GetSymbol(): Js.JsValue<string> reads this { GetterValue(current) }
    function GetStringVal(): Js.JsValue<string> reads this { GetterValue(current) }
    function GetIntVal(): Js.JsValue<string> reads this { GetterValue(current) }

    /** advance: one white-space character, one comment or one token. */
    method Advance()
      requires CanStep(input, fp)
      modifies this`fp, this`current
      ensures (current, fp) == Step(input, old(fp), old(current))
    {
      if WhiteSpaceAt(input, fp) {
        fp := fp + 1;
      } else if StartsLineComment(input, fp) {
        fp := fp + 2;
        LineCommentLoop();
      } else if StartsBlockComment(input, fp) {
        fp := fp + 2;
        BlockCommentLoop();
        fp := fp + 2;
      } else {
        ReadNext();
      }
    }

    /** The line-comment loop of advance, entered past the opening slashes. */
    method LineCommentLoop()
      requires fp <= |input| && LineCommentEnd(input, fp) < |input|
      modifies this`fp
      ensures fp == LineCommentEnd(input, old(fp))
    {
      while input[fp] != '\n'
        invariant old(fp) <= fp <= LineCommentEnd(input, old(fp))
        invariant LineCommentEnd(input, fp) == LineCommentEnd(input, old(fp))
        decreases |input| - fp
      {
        fp := fp + 1;
      }
    }

    /** The block-comment loop of advance, entered past the opener; it stops on the
        closing pair, which advance then steps over. */
    method BlockCommentLoop()
      requires fp <= |input| && CloseIndex(input, fp) < |input|
      modifies this`fp
      ensures fp == CloseIndex(input, old(fp))
    {
      while !ClosesBlockComment(input, fp)
        invariant old(fp) <= fp <= CloseIndex(input, old(fp))
        invariant CloseIndex(input, fp) == CloseIndex(input, old(fp))
        decreases |input| - fp
      {
        fp := fp + 1;
      }
    }

    /** The token branch of advance: reset `current`, then read one item. */
    method ReadNext()
      requires StringClosed(input, fp)
      modifies this`fp, this`current
      ensures (current, fp) == (TokenObject(ReadItem(input, old(fp)).0), ReadItem(input, old(fp)).1)
    {
      current := TokenObject(NoToken);
      if At(input, fp, SymbolChar) {
        current := TokenObject(Token(SymbolName, [input[fp]]));
        fp := fp + 1;
      } else if At(input, fp, NumberChar) {
        ReadInteger();
      } else if At(input, fp, StringChar) {
        ReadString();
      } else if At(input, fp, IdentifierChar) {
        ReadWord();
      } else {
        fp := fp + 1;
      }
    }

    /** The integer branch of advance. */
    method ReadInteger()
      requires current == TokenObject(NoToken)
      requires !At(input, fp, SymbolChar) && At(input, fp, NumberChar)
      modifies this`fp, this`current
      ensures TokenObject(ReadItem(input, old(fp)).0) == current && ReadItem(input, old(fp)).1 == fp
    {
      while At(input, fp, NumberChar)
        invariant old(fp) <= fp <= |input|
        invariant RunEnd(input, fp, NumberChar) == RunEnd(input, old(fp), NumberChar)
        invariant current == TokenObject(Token("", input[old(fp)..fp]))
        decreases |input| - fp
      {
        current := TokenObject(current.t.(token := current.t.token + [input[fp]]));
        fp := fp + 1;
      }
      current := TokenObject(current.t.(tokenType := IntegerName));
    }

    /** The string branch of advance: the quotes are consumed but not kept. */
    method ReadString()
      requires current == TokenObject(NoToken)
      requires At(input, fp, StringChar) && StringClosed(input, fp)
      modifies this`fp, this`current
      ensures TokenObject(ReadItem(input, old(fp)).0) == current && ReadItem(input, old(fp)).1 == fp
    {
      assert !IsSymbol('"') && !IsNumber('"');
      fp := fp + 1;
      while !At(input, fp, StringChar)
        invariant old(fp) + 1 <= fp <= |input|
        invariant NextQuote(input, fp) == NextQuote(input, old(fp) + 1) < |input|
        invariant current == TokenObject(Token("", input[old(fp) + 1..fp]))
        decreases |input| - fp
      {
        current := TokenObject(current.t.(token := current.t.token + [input[fp]]));
        fp := fp + 1;
      }
      current := TokenObject(current.t.(tokenType := StringName));
      fp := fp + 1;
    }

    /** The word branch of advance: KEYWORD when listed, else IDENTIFIER. */
    method ReadWord()
      requires current == TokenObject(NoToken)
      requires !At(input, fp, SymbolChar) && !At(input, fp, NumberChar) && !At(input, fp, StringChar)
      requires At(input, fp, IdentifierChar)
      modifies this`fp, this`current
      ensures TokenObject(ReadItem(input, old(fp)).0) == current && ReadItem(input, old(fp)).1 == fp
    {
      while At(input, fp, IdentifierChar)
        invariant old(fp) <= fp <= |input|
        invariant RunEnd(input, fp, IdentifierChar) == RunEnd(input, old(fp), IdentifierChar)
        invariant current == TokenObject(Token("", input[old(fp)..fp]))
        decreases |input| - fp
      {
        current := TokenObject(current.t.(token := current.t.token + [input[fp]]));
        fp := fp + 1;
      }
      if current.t.token in AllowedKeywords {
        current := TokenObject(current.t.(tokenType := KeywordName));
      } else {
        current := TokenObject(current.t.(tokenType := IdentifierName));
      }
    }
  }
}
