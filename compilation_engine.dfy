/**
  The declaration half of the Jack compilation engine (projects/11): a
  recursive-descent walk over the tokenizer's output that records class
  variables, parameters and local variables in the symbol table.

  The engine only ever looks at the text of the current token, so the
  tokenizer is modelled here by the sequence of token texts it yields:
  after `pos` calls of `advance` the current token is the `pos`-th of them,
  and it is the empty string before the first call and once the input is
  used up (the tokenizer then leaves its empty token in place).

  Each `while (current != ";")`-style loop of the source runs forever when
  its terminator never arrives at the right stride; the predicates named
  `...Ends` say that it does arrive, and the methods require them.
*/
module Engine {
  import opened Js
  import opened Symbols

  /** The current token's text after `pos` calls of `advance`. */
  function TokenAt(tokens: seq<string>, pos: nat): string
  {
    if 0 < pos <= |tokens| then tokens[pos - 1] else ""
  }

  // ---------------------------------------------- comma-separated names

  /** The loop `while (current != ";") { advance; name; define; advance }`
      entered at position q reaches a `;`. */
  predicate NameListEnds(tokens: seq<string>, q: nat)
    decreases |tokens| - q
  {
    q <= |tokens| && (TokenAt(tokens, q) == ";" || NameListEnds(tokens, q + 2))
  }

  /** Where that loop stops: on the `;`. */
  function NameListEnd(tokens: seq<string>, q: nat): (e: nat)
    requires NameListEnds(tokens, q)
    ensures q <= e <= |tokens| && TokenAt(tokens, e) == ";"
    decreases |tokens| - q
  {
    if TokenAt(tokens, q) == ";" then q else NameListEnd(tokens, q + 2)
  }

  /** What that loop defines: the token after each separator, with one type. */
  function NameListDecls(tokens: seq<string>, q: nat, typeName: string): (ds: seq<Decl>)
    requires NameListEnds(tokens, q)
    decreases |tokens| - q
  {
    if TokenAt(tokens, q) == ";" then []
    else [Decl(TokenAt(tokens, q + 1), typeName)] + NameListDecls(tokens, q + 2, typeName)
  }

  /** The list stops two tokens per name after it starts. */
  lemma {:induction false} NameListLength(tokens: seq<string>, q: nat, typeName: string)
    requires NameListEnds(tokens, q)
    ensures NameListEnd(tokens, q) == q + 2 * |NameListDecls(tokens, q, typeName)|
    decreases |tokens| - q
  {
    if TokenAt(tokens, q) != ";" {
      NameListLength(tokens, q + 2, typeName);
    }
  }

  /** The i-th name of the list is the token after the i-th separator, and no
      separator before it is `;`. */
  lemma {:induction false} NameListNames(tokens: seq<string>, q: nat, typeName: string, i: nat)
    requires NameListEnds(tokens, q)
    requires i < |NameListDecls(tokens, q, typeName)|
    ensures NameListDecls(tokens, q, typeName)[i] == Decl(TokenAt(tokens, q + 2 * i + 1), typeName)
    ensures TokenAt(tokens, q + 2 * i) != ";"
    decreases i
  {
    if i > 0 {
      NameListNames(tokens, q + 2, typeName, i - 1);
      assert q + 2 * i == (q + 2) + 2 * (i - 1);
    }
  }

  // --------------------------------------------------------- declarations

  /** A declaration `kind type name (, name)* ;` whose first token is at p ends. */
  predicate DeclarationEnds(tokens: seq<string>, p: nat)
  {
    NameListEnds(tokens, p + 3)
  }

  /** The position just past the declaration's `;`. */
  function DeclarationEnd(tokens: seq<string>, p: nat): (e: nat)
    requires DeclarationEnds(tokens, p)
    ensures p + 4 <= e <= |tokens| + 1 && TokenAt(tokens, e - 1) == ";"
  {
    NameListEnd(tokens, p + 3) + 1
  }

  /** The names a declaration defines, in source order, all with its type token. */
  function DeclarationDecls(tokens: seq<string>, p: nat): (ds: seq<Decl>)
    requires DeclarationEnds(tokens, p)
    ensures |ds| >= 1 && ds[0] == Decl(TokenAt(tokens, p + 2), TokenAt(tokens, p + 1))
  {
    [Decl(TokenAt(tokens, p + 2), TokenAt(tokens, p + 1))]
      + NameListDecls(tokens, p + 3, TokenAt(tokens, p + 1))
  }

  // ------------------------------------------------ runs of declarations

  /** Class variables (`static`, `field`) or a body's `var` declarations. */
  datatype Scope = ClassScope | SubroutineScope

  /** The tokens that keep a run of declarations going. */
  function Prefixes(scope: Scope): seq<string>
  {
    match scope
    case ClassScope => ["static", "field"]
    case SubroutineScope => ["var"]
  }

  /** The kind passed to `define` for a declaration starting with `prefix`. */
  function KindFor(scope: Scope, prefix: string): string
  {
    match scope
    case ClassScope => prefix
    case SubroutineScope => "local"
  }

  const SubroutinePrefixes: seq<string> := ["constructor", "function", "method"]

  lemma PrefixIsToken(tokens: seq<string>, q: nat, scope: Scope)
    requires TokenAt(tokens, q) in Prefixes(scope)
    ensures 0 < q <= |tokens|
  {
  }

  /** Every declaration of the run starting at q ends. */
  predicate DeclarationsEnd(tokens: seq<string>, q: nat, scope: Scope)
    decreases |tokens| + 1 - q
  {
    TokenAt(tokens, q) in Prefixes(scope) ==>
      DeclarationEnds(tokens, q) && DeclarationsEnd(tokens, DeclarationEnd(tokens, q), scope)
  }

  /** The tables after the run of declarations starting at q, and the position
      of the first token that is not one of the scope's prefixes. */
  function DeclareRun(tokens: seq<string>, q: nat, ts: Tables, scope: Scope): (r: (Tables, nat))
    requires DeclarationsEnd(tokens, q, scope)
    ensures q <= r.1 && TokenAt(tokens, r.1) !in Prefixes(scope)
    decreases |tokens| + 1 - q
  {
    var prefix := TokenAt(tokens, q);
    if prefix in Prefixes(scope) then
      DeclareRun(tokens, DeclarationEnd(tokens, q),
                 DefineAll(ts, DeclarationDecls(tokens, q), KindFor(scope, prefix)), scope)
    else (ts, q)
  }

  /** The declarations a run defines, in source order. */
  function RunDecls(tokens: seq<string>, q: nat, scope: Scope): seq<Decl>
    requires DeclarationsEnd(tokens, q, scope)
    decreases |tokens| + 1 - q
  {
    if TokenAt(tokens, q) in Prefixes(scope) then
      DeclarationDecls(tokens, q) + RunDecls(tokens, DeclarationEnd(tokens, q), scope)
    else []
  }

  /** The count `varCount("local")` would give after a body's `var`
      declarations: when the locals' names are new and distinct, it is the
      count before plus one per declared name. */
  lemma {:induction false} LocalCountAfterRun(tokens: seq<string>, q: nat, ts: Tables)
    requires DeclarationsEnd(tokens, q, SubroutineScope)
    requires FreshDistinct(RunDecls(tokens, q, SubroutineScope), ts.subroutineTable)
    ensures VarCount(DeclareRun(tokens, q, ts, SubroutineScope).0, "local")
      == VarCount(ts, "local") + |RunDecls(tokens, q, SubroutineScope)|
    decreases |tokens| + 1 - q
  {
    if TokenAt(tokens, q) in Prefixes(SubroutineScope) {
      var decls := DeclarationDecls(tokens, q);
      var next := DeclarationEnd(tokens, q);
      var rest := RunDecls(tokens, next, SubroutineScope);
      var ts1 := DefineAll(ts, decls, "local");
      FreshDistinctSplit(decls, rest, ts.subroutineTable);
      DefineAllIndices(ts, decls, "local");
      DefineAllKeys(ts, decls, "local");
      assert FreshDistinct(rest, ts1.subroutineTable);
      LocalCountAfterRun(tokens, next, ts1);
    }
  }

  /** Class variables are declared with the lower-case kinds, so a run of them
      leaves the class table as it was and writes only the subroutine table;
      a run of locals does the same. */
  lemma {:induction false} DeclareRunLeavesClassTable(tokens: seq<string>, q: nat, ts: Tables, scope: Scope)
    requires DeclarationsEnd(tokens, q, scope)
    ensures DeclareRun(tokens, q, ts, scope).0.classTable == ts.classTable
    decreases |tokens| + 1 - q
  {
    var prefix := TokenAt(tokens, q);
    if prefix in Prefixes(scope) {
      DefineAllStaysInTable(ts, DeclarationDecls(tokens, q), KindFor(scope, prefix));
      DeclareRunLeavesClassTable(tokens, DeclarationEnd(tokens, q),
        DefineAll(ts, DeclarationDecls(tokens, q), KindFor(scope, prefix)), scope);
    }
  }

  /** `class Point { field int x, y; static int n; }`: the fields get field
      indices 0 and 1, the static gets static index 0, all in the subroutine
      table, and the run stops on the `}`. */
  lemma PointFields()
    ensures var tokens := ["class", "Point", "{", "field", "int", "x", ",", "y", ";",
                           "static", "int", "n", ";", "}"];
      DeclarationsEnd(tokens, 4, ClassScope) &&
      DeclareRun(tokens, 4, Empty, ClassScope) ==
        (Tables(map[], map["x" := Entry("int", "field", 0), "y" := Entry("int", "field", 1),
                           "n" := Entry("int", "static", 0)]), 14)
  {
    var tokens := ["class", "Point", "{", "field", "int", "x", ",", "y", ";",
                   "static", "int", "n", ";", "}"];
    assert NameListEnd(tokens, 7) == 9;
    assert NameListEnd(tokens, 13) == 13;
    assert DeclarationDecls(tokens, 4) == [Decl("x", "int"), Decl("y", "int")];
    assert DeclarationDecls(tokens, 10) == [Decl("n", "int")];
    var t1 := AfterDefine(Empty, "x", "int", "field");
    assert GetIndex(Empty, "field") == 0 by {
      assert KeysOfKind(map[], "field") == {};
    }
    DefineFreshCounts(Empty, "x", "int", "field");
    var t2 := AfterDefine(t1, "y", "int", "field");
    assert t2.subroutineTable == map["x" := Entry("int", "field", 0), "y" := Entry("int", "field", 1)];
    assert GetIndex(t2, "static") == 0 by {
      assert KeysOfKind(t2.subroutineTable, "static") == {};
    }
    assert [Decl("x", "int"), Decl("y", "int")][1..] == [Decl("y", "int")];
    assert DefineAll(Empty, DeclarationDecls(tokens, 4), "field") == t2;
  }

  // ------------------------------------------------------- parameter lists

  /** The loop `while (current != ")") { advance; type; advance; name; define; advance }`
      entered at q reaches a `)`. */
  predicate ParameterListEnds(tokens: seq<string>, q: nat)
    decreases |tokens| - q
  {
    q <= |tokens| && (TokenAt(tokens, q) == ")" || ParameterListEnds(tokens, q + 3))
  }

  /** Where that loop stops: on the `)`. */
  function ParameterListEnd(tokens: seq<string>, q: nat): (e: nat)
    requires ParameterListEnds(tokens, q)
    ensures q <= e <= |tokens| && TokenAt(tokens, e) == ")"
    decreases |tokens| - q
  {
    if TokenAt(tokens, q) == ")" then q else ParameterListEnd(tokens, q + 3)
  }

  /** What that loop defines: after each separator a type token and a name token. */
  function ParameterDecls(tokens: seq<string>, q: nat): seq<Decl>
    requires ParameterListEnds(tokens, q)
    decreases |tokens| - q
  {
    if TokenAt(tokens, q) == ")" then []
    else [Decl(TokenAt(tokens, q + 2), TokenAt(tokens, q + 1))] + ParameterDecls(tokens, q + 3)
  }

  /** The loop stops three tokens per parameter after it starts. */
  lemma {:induction false} ParameterListLength(tokens: seq<string>, q: nat)
    requires ParameterListEnds(tokens, q)
    ensures ParameterListEnd(tokens, q) == q + 3 * |ParameterDecls(tokens, q)|
    decreases |tokens| - q
  {
    if TokenAt(tokens, q) != ")" {
      ParameterListLength(tokens, q + 3);
    }
  }

  /** The i-th parameter is the (type, name) pair after the i-th separator, and
      no separator before it is `)`. */
  lemma {:induction false} ParameterListPairs(tokens: seq<string>, q: nat, i: nat)
    requires ParameterListEnds(tokens, q)
    requires i < |ParameterDecls(tokens, q)|
    ensures ParameterDecls(tokens, q)[i] == Decl(TokenAt(tokens, q + 3 * i + 2), TokenAt(tokens, q + 3 * i + 1))
    ensures TokenAt(tokens, q + 3 * i) != ")"
    decreases i
  {
    if i > 0 {
      ParameterListPairs(tokens, q + 3, i - 1);
      assert q + 3 * i == (q + 3) + 3 * (i - 1);
    }
  }

  /** The list is entered on `(`, so `()` runs the loop once: it defines the
      token after `)` (normally `{`) with type `)`, and goes on to the next `)`
      three tokens further on. */
  lemma EmptyParameterListDefinesOnce(tokens: seq<string>, q: nat)
    requires q <= |tokens| && TokenAt(tokens, q) == "(" && TokenAt(tokens, q + 1) == ")"
    requires q + 3 <= |tokens| && TokenAt(tokens, q + 3) == ")"
    ensures ParameterListEnds(tokens, q)
    ensures ParameterDecls(tokens, q) == [Decl(TokenAt(tokens, q + 2), ")")]
    ensures ParameterListEnd(tokens, q) == q + 3
  {
    assert ParameterListEnds(tokens, q + 3);
  }

  // ---------------------------------------------------------- subroutines

  /** The tables a method's header leaves, before its body: `this` first, as
      argument of the class's type, then the parameters. */
  function MethodHeaderTables(ts: Tables, className: string, params: seq<Decl>): Tables
  {
    DefineAll(AfterDefine(ts, "this", className, "argument"), params, "argument")
  }

  /** The tables after a subroutine's receiver step: a method defines `this`
      as an argument of the class's type; other kinds define nothing. */
  function ReceiverTables(ts: Tables, subroutineType: string, className: string): Tables
  {
    if subroutineType == "method" then AfterDefine(ts, "this", className, "argument") else ts
  }

  /** Tables and cursor after the parameter list starting at q + 1 and the
      body's `var` declarations, starting from the tables ts. */
  function SignatureRun(tokens: seq<string>, q: nat, ts: Tables): (Tables, nat)
    requires ParameterListEnds(tokens, q + 1)
    requires DeclarationsEnd(tokens, ParameterListEnd(tokens, q + 1) + 2, SubroutineScope)
  {
    DeclareRun(tokens, ParameterListEnd(tokens, q + 1) + 2,
               DefineAll(ts, ParameterDecls(tokens, q + 1), "argument"), SubroutineScope)
  }

  /** In a method whose argument count starts at 0, `this` is argument 0 and the
      i-th parameter is argument i + 1. */
  lemma MethodThisIsArgumentZero(ts: Tables, className: string, params: seq<Decl>)
    requires GetIndex(ts, "argument") == 0
    requires "this" !in ts.subroutineTable
    requires forall i, j | 0 <= i < j < |params| :: params[i].name != params[j].name
    requires forall i | 0 <= i < |params| ::
      params[i].name != "this" && params[i].name !in ts.subroutineTable
    ensures var r := MethodHeaderTables(ts, className, params).subroutineTable;
      && "this" in r && r["this"] == Entry(className, "argument", 0)
      && (forall i | 0 <= i < |params| ::
            params[i].name in r && r[params[i].name] == Entry(params[i].typeName, "argument", i + 1))
  {
    var t1 := AfterDefine(ts, "this", className, "argument");
    DefineFreshCounts(ts, "this", className, "argument");
    DefineAllIndices(t1, params, "argument");
    assert "this" !in Names(params);
    DefineAllKeeps(t1, params, "argument", "this");
  }

  // -------------------------------------------------------------- engine

  /** The engine: the class name it has read, the token cursor, and the symbol
      table it writes. */
  class CompilationEngine {
    var className: string
    const tokens: seq<string>
    var pos: nat
    const symbolTable: SymbolTable

    /** The class name starts empty and no token has been read. */
    constructor (tokens: seq<string>, symbolTable: SymbolTable)
      ensures this.tokens == tokens && this.symbolTable == symbolTable
      ensures pos == 0 && className == ""
    {
      this.tokens := tokens;
      this.symbolTable := symbolTable;
      pos := 0;
      className := "";
    }

    /** getCurrentToken. */
    function CurrentToken(): (t: string)
      reads this
      ensures t == TokenAt(tokens, pos)
    {
      if 0 < pos <= |tokens| then tokens[pos - 1] else ""
    }

    /** advanceToken. */
    method AdvanceToken()
      modifies this`pos
      ensures pos == old(pos) + 1
    {
      pos := pos + 1;
    }

    /** compileClass: reads the class name, compiles the leading class-variable
        declarations, and stops at the first subroutine, whose compilation
        throws; without one it steps over the closing bracket. */
    method CompileClass() returns (c: Completion)
      requires DeclarationsEnd(tokens, pos + 4, ClassScope)
      modifies this`pos, this`className, symbolTable
      ensures className == TokenAt(tokens, old(pos) + 2)
      ensures var r := DeclareRun(tokens, old(pos) + 4, old(symbolTable.State()), ClassScope);
        && symbolTable.State() == r.0
        && (TokenAt(tokens, r.1) in SubroutinePrefixes ==>
              c == Throw(ReferenceError("subroutine_table")) && pos == r.1 + 2)
        && (TokenAt(tokens, r.1) !in SubroutinePrefixes ==> c == Normal && pos == r.1 + 1)
    {
      AdvanceToken();
      AdvanceToken();
      className := CurrentToken();
      AdvanceToken();
      AdvanceToken();
      ghost var start := DeclareRun(tokens, pos, symbolTable.State(), ClassScope);
      while CurrentToken() in Prefixes(ClassScope)
        invariant DeclarationsEnd(tokens, pos, ClassScope)
        invariant DeclareRun(tokens, pos, symbolTable.State(), ClassScope) == start
        invariant className == TokenAt(tokens, old(pos) + 2)
        decreases |tokens| + 1 - pos
      {
        PrefixIsToken(tokens, pos, ClassScope);
        CompileClassVarDec();
      }
      // The first subroutine's startSubroutine throws, so the subroutine loop
      // never gets past its first pass.
      if CurrentToken() in SubroutinePrefixes {
        c := CompileSubroutine();
        return;
      }
      AdvanceToken();
      c := Normal;
    }

    /** compileClassVarDec: defines every name of the declaration, in order,
        with the declaration's kind and type, and leaves the cursor after `;`. */
    method CompileClassVarDec()
      requires DeclarationEnds(tokens, pos)
      modifies this`pos, symbolTable
      ensures pos == DeclarationEnd(tokens, old(pos))
      ensures symbolTable.State()
        == DefineAll(old(symbolTable.State()), DeclarationDecls(tokens, old(pos)), TokenAt(tokens, old(pos)))
    {
      var kind := CurrentToken();
      AdvanceToken();
      var typeName := CurrentToken();
      AdvanceToken();
      var name := CurrentToken();
      symbolTable.Define(name, typeName, kind);
      AdvanceToken();
      DefineNameList(typeName, kind);
      AdvanceToken();
    }

    /** The `while (current != ";")` loop shared by the two declaration kinds:
        defines each name after a separator and stops on the `;`. */
    method DefineNameList(typeName: string, kind: string)
      requires NameListEnds(tokens, pos)
      modifies this`pos, symbolTable
      ensures pos == NameListEnd(tokens, old(pos))
      ensures symbolTable.State()
        == DefineAll(old(symbolTable.State()), NameListDecls(tokens, old(pos), typeName), kind)
    {
      while CurrentToken() != ";"
        invariant NameListEnds(tokens, pos)
        invariant NameListEnd(tokens, pos) == NameListEnd(tokens, old(pos))
        invariant DefineAll(symbolTable.State(), NameListDecls(tokens, pos, typeName), kind)
          == DefineAll(old(symbolTable.State()), NameListDecls(tokens, old(pos), typeName), kind)
        decreases |tokens| - pos
      {
        AdvanceToken();
        var name := CurrentToken();
        symbolTable.Define(name, typeName, kind);
        AdvanceToken();
      }
    }

    /** compileSubroutine: reads the subroutine's kind, return type and name,
        then calls startSubroutine, which throws. */
    method CompileSubroutine() returns (c: Completion)
      modifies this`pos
      ensures pos == old(pos) + 2
      ensures c == Throw(ReferenceError("subroutine_table"))
    {
      var subroutineType := CurrentToken();
      AdvanceToken();
      var returnType := CurrentToken();
      AdvanceToken();
      var name := CurrentToken();
      var e := symbolTable.StartSubroutine(name);
      c := Throw(e);
    }

    /** The part of compileSubroutine after startSubroutine, entered with the
        cursor on the subroutine's name: a method first defines `this`, then come
        the parameters and the body, whose header call throws. */
    method CompileSubroutineSignature(subroutineType: string) returns (c: Completion)
      requires ParameterListEnds(tokens, pos + 1)
      requires DeclarationsEnd(tokens, ParameterListEnd(tokens, pos + 1) + 2, SubroutineScope)
      modifies this`pos, symbolTable
      ensures (symbolTable.State(), pos)
        == SignatureRun(tokens, old(pos), ReceiverTables(old(symbolTable.State()), subroutineType, className))
      ensures c == Throw(TypeError("getSubroutineName"))
    {
      DefineReceiver(subroutineType);
      AdvanceToken();
      CompileParameterList();
      AdvanceToken();
      c := CompileSubroutineBody();
    }

    /** The `if (type == "method")` step: only a method defines `this`. */
    method DefineReceiver(subroutineType: string)
      modifies symbolTable
      ensures symbolTable.State() == ReceiverTables(old(symbolTable.State()), subroutineType, className)
    {
      if subroutineType == "method" {
        symbolTable.Define("this", className, "argument");
      }
    }

    /** compileParameterList: defines every (type, name) pair as an argument
        and stops on the `)` that follows a pair. */
    method CompileParameterList()
      requires ParameterListEnds(tokens, pos)
      modifies this`pos, symbolTable
      ensures pos == ParameterListEnd(tokens, old(pos))
      ensures symbolTable.State()
        == DefineAll(old(symbolTable.State()), ParameterDecls(tokens, old(pos)), "argument")
    {
      while CurrentToken() != ")"
        invariant ParameterListEnds(tokens, pos)
        invariant ParameterListEnd(tokens, pos) == ParameterListEnd(tokens, old(pos))
        invariant DefineAll(symbolTable.State(), ParameterDecls(tokens, pos), "argument")
          == DefineAll(old(symbolTable.State()), ParameterDecls(tokens, old(pos)), "argument")
        decreases |tokens| - pos
      {
        AdvanceToken();
        var typeName := CurrentToken();
        AdvanceToken();
        var name := CurrentToken();
        symbolTable.Define(name, typeName, "argument");
        AdvanceToken();
      }
    }

    /** compileSubroutineBody: steps onto the body, compiles every leading `var`
        declaration, then calls the symbol table's missing getSubroutineName,
        which throws before the local count is read.  LocalCountAfterRun says
        what that count would be. */
    method CompileSubroutineBody() returns (c: Completion)
      requires DeclarationsEnd(tokens, pos + 1, SubroutineScope)
      modifies this`pos, symbolTable
      ensures var r := DeclareRun(tokens, old(pos) + 1, old(symbolTable.State()), SubroutineScope);
        symbolTable.State() == r.0 && pos == r.1
      ensures c == Throw(TypeError("getSubroutineName"))
    {
      AdvanceToken();
      ghost var start := DeclareRun(tokens, pos, symbolTable.State(), SubroutineScope);
      while CurrentToken() == "var"
        invariant DeclarationsEnd(tokens, pos, SubroutineScope)
        invariant DeclareRun(tokens, pos, symbolTable.State(), SubroutineScope) == start
        decreases |tokens| + 1 - pos
      {
        PrefixIsToken(tokens, pos, SubroutineScope);
        CompileVarDec();
      }
      c := Throw(TypeError("getSubroutineName"));
    }

    /** compileVarDec: defines every name of the declaration as a local of the
        declaration's type, and leaves the cursor after `;`. */
    method CompileVarDec()
      requires DeclarationEnds(tokens, pos)
      modifies this`pos, symbolTable
      ensures pos == DeclarationEnd(tokens, old(pos))
      ensures symbolTable.State()
        == DefineAll(old(symbolTable.State()), DeclarationDecls(tokens, old(pos)), "local")
    {
      AdvanceToken();
      var typeName := CurrentToken();
      AdvanceToken();
      var name := CurrentToken();
      symbolTable.Define(name, typeName, "local");
      AdvanceToken();
      DefineNameList(typeName, "local");
      AdvanceToken();
    }
  }
}
