/**
  The token tables of the Jack compiler (projects/11/JackCompiler/Util.js):
  the binary operators, the one-character symbols, the reserved words and the
  names the tokenizer writes into a token's `type`.
*/
module JackUtil {

  /** VALID_OPERATORS. */
  const ValidOperators: seq<string> := ["+", "-", "*", "/", "&", "|", "<", ">", "="]

  /** VALID_SYMBOLS. */
  const ValidSymbols: seq<string> :=
    ["{", "}", "(", ")", "[", "]", ".", ",", ";", "+", "-", "*", "/", "&", "|", "<", ">", "=", "~"]

  /** The characters of VALID_SYMBOLS, in the same order. */
  const SymbolCharacters: string := "{}()[].,;+-*/&|<>=~"

  /** A one-character string is a symbol exactly when its character is one of SymbolCharacters. */
  lemma SymbolCharactersMatch(c: char)
    ensures [c] in ValidSymbols <==> c in SymbolCharacters
  {
    if c in SymbolCharacters {
      var i :| 0 <= i < |SymbolCharacters| && SymbolCharacters[i] == c;
      assert ValidSymbols[i] == [c];
    }
  }

  /** VALID_KEYWORDS. */
  const ValidKeywords: seq<string> :=
    ["class", "method", "function", "constructor", "int", "boolean", "char", "void", "var",
     "static", "field", "let", "do", "if", "else", "while", "return", "true", "false", "null", "this"]

  /** The five token kinds, the keys of VALID_TOKENS. */
  datatype TokenKind = Symbol | Identifier | Keyword | StringConst | IntConst

  /** VALID_TOKENS: the name a token of each kind carries in its `type`. */
  function TokenName(k: TokenKind): string
  {
    match k
    case Symbol => "symbol"
    case Identifier => "identifier"
    case Keyword => "keyword"
    case StringConst => "stringConstant"
    case IntConst => "integerConstant"
  }

  predicate IsLowerCaseLetter(c: char) { 'a' <= c <= 'z' }

  /** Every binary operator is also a symbol; `~` is a symbol but not a binary operator. */
  lemma OperatorsAreSymbols()
    ensures forall o | o in ValidOperators :: o in ValidSymbols
    ensures "~" in ValidSymbols && "~" !in ValidOperators
  {
  }

  /** VALID_SYMBOLS holds 19 distinct one-character strings. */
  lemma SymbolsAreDistinctCharacters()
    ensures |ValidSymbols| == 19
    ensures forall i | 0 <= i < |ValidSymbols| :: |ValidSymbols[i]| == 1
    ensures forall i, j | 0 <= i < j < |ValidSymbols| :: ValidSymbols[i] != ValidSymbols[j]
  {
  }

  /** VALID_KEYWORDS holds 21 distinct words. */
  lemma KeywordsAreDistinct()
    ensures |ValidKeywords| == 21
    ensures forall i, j | 0 <= i < j < |ValidKeywords| :: ValidKeywords[i] != ValidKeywords[j]
  {
  }

  /** A word of at least two lower-case letters. */
  predicate IsLowerCaseWord(w: string) {
    |w| >= 2 && forall i | 0 <= i < |w| :: IsLowerCaseLetter(w[i])
  }

  /** Every keyword is a word of at least two lower-case letters, so none is a symbol. */
  lemma KeywordsAreLowerCaseWords()
    ensures forall i | 0 <= i < |ValidKeywords| :: IsLowerCaseWord(ValidKeywords[i])
    ensures forall w | w in ValidKeywords :: w !in ValidSymbols
  {
    assert IsLowerCaseWord("class");
    assert IsLowerCaseWord("method");
    assert IsLowerCaseWord("function");
    assert IsLowerCaseWord("constructor");
    assert IsLowerCaseWord("int");
    assert IsLowerCaseWord("boolean");
    assert IsLowerCaseWord("char");
    assert IsLowerCaseWord("void");
    assert IsLowerCaseWord("var");
    assert IsLowerCaseWord("static");
    assert IsLowerCaseWord("field");
    assert IsLowerCaseWord("let");
    assert IsLowerCaseWord("do");
    assert IsLowerCaseWord("if");
    assert IsLowerCaseWord("else");
    assert IsLowerCaseWord("while");
    assert IsLowerCaseWord("return");
    assert IsLowerCaseWord("true");
    assert IsLowerCaseWord("false");
    assert IsLowerCaseWord("null");
    assert IsLowerCaseWord("this");
  }

  /** The five token-kind names are distinct. */
  lemma TokenNamesAreDistinct(k: TokenKind, l: TokenKind)
    ensures TokenName(k) == TokenName(l) <==> k == l
  {
  }
}
