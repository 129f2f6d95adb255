/** What creation scripts put into a schema, table by table and index by index. */
module BuiltSchemas {
  import opened SchemaModel
  import opened CreationScripts

  /** A defined table has its key, the plain and the foreign-key columns it was given, and accepts NULL in
      exactly the optional ones. */
  lemma DefineExactly(required: set<string>, optional: set<string>,
                      links: set<ForeignKey>, optionalLinks: set<ForeignKey>, c: string)
    ensures var t := Define(required, optional, links, optionalLinks);
            && (c in t.columns <==> || c == "id" || c in required || c in optional
                                    || (exists fk :: fk in links && fk.column == c)
                                    || (exists fk :: fk in optionalLinks && fk.column == c))
            && (c in t.nullable <==> c in optional || exists fk :: fk in optionalLinks && fk.column == c)
            && t.fks == links + optionalLinks
  {
  }

  /** There is an index of the conventional name over the column. */
  predicate HasIndex(d: Schema, t: TableName, c: string) {
    Ix(t, c) in d.indexes && d.indexes[Ix(t, c)] == Index(t, {c})
  }

  /** A script that runs through leaves every older table and index as it was and adds each of its tables
      as defined, with one index of the conventional name over each indexed column, and nothing else. */
  lemma CreatedExactly(s: Schema, script: seq<NewTable>)
    requires ScriptOk(script) && Exec(s, CreateAll(script)).Ok?
    ensures var d := Exec(s, CreateAll(script)).schema;
            && (forall t :: t in s.tables ==> t in d.tables && d.tables[t] == s.tables[t])
            && (forall t :: t in d.tables && t !in s.tables ==>
                  exists i :: 0 <= i < |script| && script[i].name == t)
            && (forall i :: 0 <= i < |script| ==>
                  && script[i].name !in s.tables && script[i].name in d.tables
                  && d.tables[script[i].name] == script[i].definition)
    ensures var d := Exec(s, CreateAll(script)).schema;
            && (forall x :: x in s.indexes ==> x in d.indexes && d.indexes[x] == s.indexes[x])
            && (forall x :: x in d.indexes && x !in s.indexes ==>
                  exists i :: 0 <= i < |script| && x.Ix? && x.table == script[i].name && x.column in script[i].indexed)
            && (forall i, c :: 0 <= i < |script| && c in script[i].indexed ==> HasIndex(d, script[i].name, c))
  {
    hide Exec, Ready, ReadyAt, ScriptOk, TablesOf, IndexesOf, HasIndex;
    CreateAllExactly(s, script);
    forall i | 0 <= i < |script| ensures ReadyAt(s, script, i) {
      ReadyEach(s, script, i);
    }
    TablesAdded(s, script);
    IndexesAdded(s, script);
  }

  lemma ReadyEach(s: Schema, script: seq<NewTable>, i: nat)
    requires Ready(s, script) && i < |script|
    ensures ReadyAt(s, script, i) && script[i].name !in s.tables
    ensures forall c :: c in script[i].indexed ==> Ix(script[i].name, c) !in s.indexes
  {
  }

  lemma TablesAdded(s: Schema, script: seq<NewTable>)
    requires ScriptOk(script) && Ready(s, script)
    ensures var d := Built(s, script);
            && (forall t :: t in s.tables ==> t in d.tables && d.tables[t] == s.tables[t])
            && (forall t :: t in d.tables && t !in s.tables ==>
                  exists i :: 0 <= i < |script| && script[i].name == t)
            && (forall i :: 0 <= i < |script| ==>
                  && script[i].name !in s.tables && script[i].name in d.tables
                  && d.tables[script[i].name] == script[i].definition)
  {
    hide ScriptOk, Ready, TablesOf, IndexesOf;
    forall i | 0 <= i < |script|
      ensures script[i].name !in s.tables
      ensures script[i].name in TablesOf(script) && TablesOf(script)[script[i].name] == script[i].definition
    {
      ReadyEach(s, script, i);
      EntryBuilt(script, i);
    }
    forall t | t in TablesOf(script) ensures t !in s.tables && exists i :: 0 <= i < |script| && script[i].name == t {
      DefinitionOf(script, t);
      var i :| 0 <= i < |script| && script[i].name == t;
    }
  }

  lemma IndexesAdded(s: Schema, script: seq<NewTable>)
    requires ScriptOk(script) && Ready(s, script)
    ensures var d := Built(s, script);
            && (forall x :: x in s.indexes ==> x in d.indexes && d.indexes[x] == s.indexes[x])
            && (forall x :: x in d.indexes && x !in s.indexes ==>
                  exists i :: 0 <= i < |script| && x.Ix? && x.table == script[i].name && x.column in script[i].indexed)
            && (forall i, c :: 0 <= i < |script| && c in script[i].indexed ==> HasIndex(d, script[i].name, c))
  {
    hide ScriptOk, Ready, TablesOf, IndexesOf;
    forall x | x in IndexesOf(script)
      ensures x !in s.indexes
      ensures exists i :: 0 <= i < |script| && x.Ix? && x.table == script[i].name && x.column in script[i].indexed
    {
      var i := IndexesOfWhere(script, x);
      ReadyEach(s, script, i);
      assert x == Ix(script[i].name, x.column);
    }
    forall i, c | 0 <= i < |script| && c in script[i].indexed
      ensures HasIndex(Built(s, script), script[i].name, c)
    {
      IndexBuilt(script, i, c);
    }
  }

  lemma {:induction false} IndexBuilt(script: seq<NewTable>, i: nat, c: string)
    requires ScriptOk(script) && i < |script| && c in script[i].indexed
    ensures var x := Ix(script[i].name, c);
            x in IndexesOf(script) && IndexesOf(script)[x] == Index(script[i].name, {c})
  {
    hide ScriptOk, IndexesFor, CreatedBefore;
    var last := |script| - 1;
    var n, x := script[last], Ix(script[i].name, c);
    IndexesForKeys(n, |n.indexed|, x);
    assert n.indexed[..|n.indexed|] == n.indexed;
    if i < last {
      ScriptOkSnoc(script);
      IndexBuilt(script[..last], i, c);
      CreatedAt(script[..last], i, last);
    }
  }
}
