/**
  The Jack compiler's symbol table (projects/11/JackCompiler/SymbolTable.js):
  a class-scope and a subroutine-scope dictionary from names to
  (type, kind, index), where the index of a new entry is the number of
  entries of its kind already in the table it goes to.

  The tables are plain JavaScript objects that `define` updates in place,
  so they are fields of the class SymbolTable; the queries are pure and are
  stated here as functions of the two tables' value.
*/
module Symbols {
  import opened Js

  /** The object `define` stores under a name. */
  datatype Entry = Entry(typeName: string, kind: string, index: nat)

  type Table = map<string, Entry>

  /** The value of both dictionaries. */
  datatype Tables = Tables(classTable: Table, subroutineTable: Table)

  const Empty := Tables(map[], map[])

  /** Only the upper-case kinds select the class table. */
  predicate IsClassKind(kind: string) {
    kind == "STATIC" || kind == "FIELD"
  }

  /** getTableByKind. */
  function GetTableByKind(ts: Tables, kind: string): (t: Table)
    ensures IsClassKind(kind) ==> t == ts.classTable
    ensures !IsClassKind(kind) ==> t == ts.subroutineTable
  {
    if IsClassKind(kind) then ts.classTable else ts.subroutineTable
  }

  /** The names whose entry in `t` has kind `kind`. */
  function KeysOfKind(t: Table, kind: string): (ks: set<string>)
    ensures forall k :: k in ks <==> k in t && t[k].kind == kind
  {
    set k | k in t && t[k].kind == kind
  }

  /** getIndex: how many entries of the kind the kind's table holds. */
  function GetIndex(ts: Tables, kind: string): nat
  {
    |KeysOfKind(GetTableByKind(ts, kind), kind)|
  }

  /** The tables after define: the kind's table gets `name` bound to a fresh entry whose index is
      counted before the write; everything else stays as it was. */
  function AfterDefine(ts: Tables, name: string, typeName: string, kind: string): (r: Tables)
    ensures GetTableByKind(r, kind) ==
      GetTableByKind(ts, kind)[name := Entry(typeName, kind, GetIndex(ts, kind))]
    ensures IsClassKind(kind) ==> r.subroutineTable == ts.subroutineTable
    ensures !IsClassKind(kind) ==> r.classTable == ts.classTable
  {
    var e := Entry(typeName, kind, GetIndex(ts, kind));
    if IsClassKind(kind) then ts.(classTable := ts.classTable[name := e])
    else ts.(subroutineTable := ts.subroutineTable[name := e])
  }

  /** findIdentifier: the subroutine entry shadows the class entry; null if neither exists. */
  function FindIdentifier(ts: Tables, name: string): (r: JsValue<Entry>)
    ensures r.Null? <==> name !in ts.subroutineTable && name !in ts.classTable
    ensures name in ts.subroutineTable ==> r == Defined(ts.subroutineTable[name])
    ensures name !in ts.subroutineTable && name in ts.classTable ==> r == Defined(ts.classTable[name])
  {
    if name in ts.subroutineTable then Defined(ts.subroutineTable[name])
    else if name in ts.classTable then Defined(ts.classTable[name])
    else Null
  }

  /** varCount. */
  function VarCount(ts: Tables, kind: string): nat
  {
    GetIndex(ts, kind)
  }

  /** kindOf: `findIdentifier(name)?.kind`. */
  function KindOf(ts: Tables, name: string): (r: JsValue<string>)
    ensures r.Undefined? <==> FindIdentifier(ts, name).Null?
    ensures r.Defined? ==> r.value == FindIdentifier(ts, name).value.kind
  {
    match FindIdentifier(ts, name)
    case Defined(e) => Defined(e.kind)
    case _ => Undefined
  }

  /** typeOf: `findIdentifier(name)?.type`. */
  function TypeOf(ts: Tables, name: string): (r: JsValue<string>)
    ensures r.Undefined? <==> FindIdentifier(ts, name).Null?
    ensures r.Defined? ==> r.value == FindIdentifier(ts, name).value.typeName
  {
    match FindIdentifier(ts, name)
    case Defined(e) => Defined(e.typeName)
    case _ => Undefined
  }

  /** indexOf: `findIdentifier(name)?.index`. */
  function IndexOf(ts: Tables, name: string): (r: JsValue<nat>)
    ensures r.Undefined? <==> FindIdentifier(ts, name).Null?
    ensures r.Defined? ==> r.value == FindIdentifier(ts, name).value.index
  {
    match FindIdentifier(ts, name)
    case Defined(e) => Defined(e.index)
    case _ => Undefined
  }

  /** A name and the type it is declared with. */
  datatype Decl = Decl(name: string, typeName: string)

  /** A run of `define` calls with one kind, in order. */
  function DefineAll(ts: Tables, decls: seq<Decl>, kind: string): Tables
    decreases |decls|
  {
    if decls == [] then ts
    else DefineAll(AfterDefine(ts, decls[0].name, decls[0].typeName, kind), decls[1..], kind)
  }

  /** Defining a name that its kind's table lacks adds exactly one entry of that kind. */
  lemma DefineFreshCounts(ts: Tables, name: string, typeName: string, kind: string)
    requires name !in GetTableByKind(ts, kind)
    ensures GetIndex(AfterDefine(ts, name, typeName, kind), kind) == GetIndex(ts, kind) + 1
  {
    var t := GetTableByKind(ts, kind);
    var t' := GetTableByKind(AfterDefine(ts, name, typeName, kind), kind);
    assert KeysOfKind(t', kind) == KeysOfKind(t, kind) + {name};
  }

  /** Redefining a name that is already in its kind's table under the same kind
      leaves the count as it was. */
  lemma RedefineKeepsCount(ts: Tables, name: string, typeName: string, kind: string)
    requires name in GetTableByKind(ts, kind) && GetTableByKind(ts, kind)[name].kind == kind
    ensures GetIndex(AfterDefine(ts, name, typeName, kind), kind) == GetIndex(ts, kind)
  {
    var t := GetTableByKind(ts, kind);
    var t' := GetTableByKind(AfterDefine(ts, name, typeName, kind), kind);
    assert KeysOfKind(t', kind) == KeysOfKind(t, kind);
  }

  /** Successive distinct new names of one kind get the indices n, n+1, n+2, ...
      where n is the count before the first, each with its own type, and the count
      grows by one per name; the other table is untouched. */
  lemma {:induction false} DefineAllIndices(ts: Tables, decls: seq<Decl>, kind: string)
    requires forall i, j | 0 <= i < j < |decls| :: decls[i].name != decls[j].name
    requires forall i | 0 <= i < |decls| :: decls[i].name !in GetTableByKind(ts, kind)
    ensures var r := DefineAll(ts, decls, kind);
      && (forall i | 0 <= i < |decls| ::
            decls[i].name in GetTableByKind(r, kind) &&
            GetTableByKind(r, kind)[decls[i].name] == Entry(decls[i].typeName, kind, GetIndex(ts, kind) + i))
      && GetIndex(r, kind) == GetIndex(ts, kind) + |decls|
      && (IsClassKind(kind) ==> r.subroutineTable == ts.subroutineTable)
      && (!IsClassKind(kind) ==> r.classTable == ts.classTable)
    decreases |decls|
  {
    if decls != [] {
      var ts1 := AfterDefine(ts, decls[0].name, decls[0].typeName, kind);
      DefineFreshCounts(ts, decls[0].name, decls[0].typeName, kind);
      DefineAllIndices(ts1, decls[1..], kind);
      var r := DefineAll(ts1, decls[1..], kind);
      DefineAllKeeps(ts1, decls[1..], kind, decls[0].name);
      forall i | 0 <= i < |decls|
        ensures decls[i].name in GetTableByKind(r, kind)
        ensures GetTableByKind(r, kind)[decls[i].name] == Entry(decls[i].typeName, kind, GetIndex(ts, kind) + i)
      {
        if i > 0 {
          assert decls[i] == decls[1..][i - 1];
        }
      }
    }
  }

  /** The names of some declarations. */
  function Names(decls: seq<Decl>): (ns: set<string>)
    ensures forall i | 0 <= i < |decls| :: decls[i].name in ns
    ensures forall n | n in ns :: exists i | 0 <= i < |decls| :: decls[i].name == n
  {
    set i | 0 <= i < |decls| :: decls[i].name
  }

  /** The declarations' names are pairwise different and none is in `t`. */
  predicate FreshDistinct(decls: seq<Decl>, t: Table)
  {
    && (forall i, j | 0 <= i < j < |decls| :: decls[i].name != decls[j].name)
    && (forall i | 0 <= i < |decls| :: decls[i].name !in t)
  }

  /** Both halves of fresh, distinct declarations are fresh and distinct, and
      no name of the second half is a name of the first. */
  lemma FreshDistinctSplit(a: seq<Decl>, b: seq<Decl>, t: Table)
    requires FreshDistinct(a + b, t)
    ensures FreshDistinct(a, t) && FreshDistinct(b, t)
    ensures forall j | 0 <= j < |b| :: b[j].name !in Names(a)
  {
    forall i, j | 0 <= i < j < |b| ensures b[i].name != b[j].name {
      assert (a + b)[|a| + i] == b[i] && (a + b)[|a| + j] == b[j];
    }
    forall j | 0 <= j < |b| ensures b[j].name !in Names(a) && b[j].name !in t {
      assert (a + b)[|a| + j] == b[j];
      forall i | 0 <= i < |a| ensures a[i].name != b[j].name {
        assert (a + b)[i] == a[i];
      }
    }
    forall i | 0 <= i < |a| ensures a[i].name !in t {
      assert (a + b)[i] == a[i];
    }
    forall i, j | 0 <= i < j < |a| ensures a[i].name != a[j].name {
      assert (a + b)[i] == a[i] && (a + b)[j] == a[j];
    }
  }

  /** A run of definitions adds exactly the declared names to its kind's table. */
  lemma {:induction false} DefineAllKeys(ts: Tables, decls: seq<Decl>, kind: string)
    ensures GetTableByKind(DefineAll(ts, decls, kind), kind).Keys
      == GetTableByKind(ts, kind).Keys + Names(decls)
    decreases |decls|
  {
    if decls == [] {
      assert Names(decls) == {};
    } else {
      var ts1 := AfterDefine(ts, decls[0].name, decls[0].typeName, kind);
      DefineAllKeys(ts1, decls[1..], kind);
      NamesCons(decls);
    }
  }

  /** The names of a nonempty run: the first one and those of the rest. */
  lemma NamesCons(decls: seq<Decl>)
    requires decls != []
    ensures Names(decls) == {decls[0].name} + Names(decls[1..])
  {
    forall n | n in Names(decls) ensures n in {decls[0].name} + Names(decls[1..]) {
      var i :| 0 <= i < |decls| && decls[i].name == n;
      if i > 0 {
        assert decls[1..][i - 1] == decls[i];
      }
    }
    forall n | n in Names(decls[1..]) ensures n in Names(decls) {
      var i :| 0 <= i < |decls[1..]| && decls[1..][i].name == n;
      assert decls[i + 1].name == n;
    }
  }

  /** Defining other names keeps an entry. */
  lemma {:induction false} DefineAllKeeps(ts: Tables, decls: seq<Decl>, kind: string, n: string)
    requires n !in Names(decls)
    requires n in GetTableByKind(ts, kind)
    ensures var r := DefineAll(ts, decls, kind);
      n in GetTableByKind(r, kind) && GetTableByKind(r, kind)[n] == GetTableByKind(ts, kind)[n]
    decreases |decls|
  {
    if decls != [] {
      NamesCons(decls);
      DefineAllKeeps(AfterDefine(ts, decls[0].name, decls[0].typeName, kind), decls[1..], kind, n);
    }
  }

  /** A run of definitions of a kind writes only the table chosen for that kind. */
  lemma {:induction false} DefineAllStaysInTable(ts: Tables, decls: seq<Decl>, kind: string)
    ensures IsClassKind(kind) ==> DefineAll(ts, decls, kind).subroutineTable == ts.subroutineTable
    ensures !IsClassKind(kind) ==> DefineAll(ts, decls, kind).classTable == ts.classTable
    decreases |decls|
  {
    if decls != [] {
      DefineAllStaysInTable(AfterDefine(ts, decls[0].name, decls[0].typeName, kind), decls[1..], kind);
    }
  }

  /** The kinds the compilation engine passes are lower case, so even its
      `static` and `field` declarations land in the subroutine table. */
  lemma EngineKindsUseSubroutineTable(ts: Tables, name: string, typeName: string, kind: string)
    requires kind in ["static", "field", "argument", "local"]
    ensures AfterDefine(ts, name, typeName, kind).classTable == ts.classTable
    ensures AfterDefine(ts, name, typeName, kind).subroutineTable[name].kind == kind
  {
  }

  /** Redefinition: declaring `a`, `a`, `b` as locals in empty tables gives the
      second `a` index 1 (the old `a` was counted) and `b` index 1 as well. */
  lemma RedefinitionRepeatsIndex()
    ensures var r := DefineAll(Empty, [Decl("a", "int"), Decl("a", "int"), Decl("b", "int")], "local");
      r.subroutineTable["a"].index == 1 && r.subroutineTable["b"].index == 1
  {
    var t1 := AfterDefine(Empty, "a", "int", "local");
    assert GetIndex(Empty, "local") == 0 by {
      assert KeysOfKind(map[], "local") == {};
    }
    DefineFreshCounts(Empty, "a", "int", "local");
    var t2 := AfterDefine(t1, "a", "int", "local");
    RedefineKeepsCount(t1, "a", "int", "local");
    assert t2.subroutineTable["a"].index == 1;
    var t3 := AfterDefine(t2, "b", "int", "local");
    assert t3.subroutineTable["b"].index == 1;
    var ds := [Decl("a", "int"), Decl("a", "int"), Decl("b", "int")];
    assert DefineAll(Empty, ds, "local") == DefineAll(t3, [], "local") by {
      assert ds[1..] == [Decl("a", "int"), Decl("b", "int")];
      assert ds[1..][1..] == [Decl("b", "int")];
      assert ds[1..][1..][1..] == [];
    }
  }

  /** After `define`, looking the name up finds the new entry, unless a
      class-kind name is shadowed by a subroutine entry of the same name. */
  lemma FindAfterDefine(ts: Tables, name: string, typeName: string, kind: string)
    ensures var r := FindIdentifier(AfterDefine(ts, name, typeName, kind), name);
      && (!IsClassKind(kind) || name !in ts.subroutineTable ==>
            r == Defined(Entry(typeName, kind, GetIndex(ts, kind))))
      && (IsClassKind(kind) && name in ts.subroutineTable ==>
            r == Defined(ts.subroutineTable[name]))
  {
  }

  /** The table object: `define` writes its dictionaries in place. */
  class SymbolTable {
    var classTable: Table
    var subroutineTable: Table

    /** Both dictionaries start empty. */
    constructor ()
      ensures State() == Empty
    {
      classTable := map[];
      subroutineTable := map[];
    }

    function State(): Tables
      reads this
    {
      Tables(classTable, subroutineTable)
    }

    /** startSubroutine assigns the bare name `subroutine_table`, which no scope
        declares; class bodies are strict code, so the assignment throws and
        neither dictionary is cleared.  startSubroutine declares no parameter:
        `name` is the argument the engine passes, which JavaScript ignores. */
    method StartSubroutine(name: string) returns (e: Exception)
      ensures e == ReferenceError("subroutine_table")
    {
      e := ReferenceError("subroutine_table");
    }

    /** define(name, type, kind). */
    method Define(name: string, typeName: string, kind: string)
      modifies this
      ensures State() == AfterDefine(old(State()), name, typeName, kind)
    {
      var e := Entry(typeName, kind, GetIndex(State(), kind));
      if IsClassKind(kind) {
        classTable := classTable[name := e];
      } else {
        subroutineTable := subroutineTable[name := e];
      }
    }
  }
}
