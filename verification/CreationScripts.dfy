/** Migrations that create tables with their indexes, and their downgrades. */
module CreationScripts {
  import opened SchemaModel

  /** A `create_table` followed by one `create_index` for each column in `indexed`. */
  datatype NewTable = NewTable(name: TableName, definition: Table, indexed: seq<string>)

  /** A table definition: the key, the required and the optional plain columns, and the required and
      the optional foreign-key columns. */
  function Define(required: set<string>, optional: set<string>,
                  links: set<ForeignKey>, optionalLinks: set<ForeignKey>): (t: Table)
    ensures KEY in t.columns && t.fks == links + optionalLinks
    ensures forall fk :: fk in t.fks ==> fk.column in t.columns
    ensures required + optional <= t.columns
  {
    Table({KEY} + required + optional + LinkColumns(links) + LinkColumns(optionalLinks),
          optional + LinkColumns(optionalLinks),
          links + optionalLinks)
  }

  function LinkColumns(links: set<ForeignKey>): set<string> {
    set fk | fk in links :: fk.column
  }

  function IndexOps(n: NewTable): seq<Op> {
    seq(|n.indexed|, i requires 0 <= i < |n.indexed| =>
      CreateIndex(Ix(n.name, n.indexed[i]), n.name, {n.indexed[i]}))
  }

  function CreateOps(n: NewTable): seq<Op> {
    [CreateTable(n.name, n.definition)] + IndexOps(n)
  }

  function CreateAll(script: seq<NewTable>): seq<Op> {
    if |script| == 0 then []
    else CreateAll(script[..|script| - 1]) + CreateOps(script[|script| - 1])
  }

  /** Drop the tables, newest first; their indexes go with them. */
  function DropAll(script: seq<NewTable>): seq<Op> {
    if |script| == 0 then []
    else [DropTable(script[|script| - 1].name)] + DropAll(script[..|script| - 1])
  }

  function DropIndexOps(n: NewTable): seq<Op> {
    seq(|n.indexed|, i requires 0 <= i < |n.indexed| => DropIndex(Ix(n.name, n.indexed[|n.indexed| - 1 - i])))
  }

  function UndoOps(n: NewTable): seq<Op> {
    DropIndexOps(n) + [DropTable(n.name)]
  }

  /** Drop indexes and tables one by one, newest first. */
  function UndoAll(script: seq<NewTable>): seq<Op> {
    if |script| == 0 then []
    else UndoOps(script[|script| - 1]) + UndoAll(script[..|script| - 1])
  }

  // ---------------------------------------------------------------- what a script builds

  function TablesOf(script: seq<NewTable>): map<TableName, Table> {
    if |script| == 0 then map[]
    else
      var n := script[|script| - 1];
      TablesOf(script[..|script| - 1])[n.name := n.definition]
  }

  function IndexesFor(n: NewTable, count: nat): map<IndexName, Index>
    requires count <= |n.indexed|
  {
    if count == 0 then map[]
    else
      var c := n.indexed[count - 1];
      IndexesFor(n, count - 1)[Ix(n.name, c) := Index(n.name, {c})]
  }

  function IndexesOf(script: seq<NewTable>): map<IndexName, Index> {
    if |script| == 0 then map[]
    else
      var n := script[|script| - 1];
      IndexesOf(script[..|script| - 1]) + IndexesFor(n, |n.indexed|)
  }

  function Built(s: Schema, script: seq<NewTable>): Schema {
    Schema(s.tables + TablesOf(script), s.indexes + IndexesOf(script))
  }

  // ---------------------------------------------------------------- conditions

  ghost predicate NoRepeats(columns: seq<string>) {
    forall i, j :: 0 <= i < j < |columns| ==> columns[i] != columns[j]
  }

  /** The definition makes sense on its own. */
  ghost predicate TableOk(n: NewTable) {
    && KEY in n.definition.columns
    && (forall fk :: fk in n.definition.fks ==> fk.column in n.definition.columns)
    && (forall c :: c in n.indexed ==> c in n.definition.columns)
    && NoRepeats(n.indexed)
  }

  ghost predicate ScriptOk(script: seq<NewTable>) {
    && (forall i :: 0 <= i < |script| ==> TableOk(script[i]))
    && (forall i, j :: 0 <= i < j < |script| ==> script[i].name != script[j].name)
  }

  /** One of the first `n` tables of the script is `t`. */
  ghost predicate CreatedBefore(script: seq<NewTable>, n: nat, t: TableName)
    requires n <= |script|
  {
    n > 0 && (script[n - 1].name == t || CreatedBefore(script, n - 1, t))
  }

  /** What creating the table at position `i` demands of the starting schema. */
  ghost predicate ReadyAt(s: Schema, script: seq<NewTable>, i: nat)
    requires i < |script|
  {
    var n := script[i];
    && n.name !in s.tables
    && (forall c :: c in n.indexed ==> Ix(n.name, c) !in s.indexes)
    && (forall fk :: fk in n.definition.fks ==>
          fk.target == n.name || CreatedBefore(script, i, fk.target) || HasKey(s, fk.target))
  }

  ghost predicate Ready(s: Schema, script: seq<NewTable>) {
    forall i :: 0 <= i < |script| ==> ReadyAt(s, script, i)
  }

  // ---------------------------------------------------------------- one table

  lemma {:induction false} IndexesForKeys(n: NewTable, count: nat, x: IndexName)
    requires count <= |n.indexed|
    ensures x in IndexesFor(n, count)
            <==> x.Ix? && x.table == n.name && x.column in n.indexed[..count]
    ensures x in IndexesFor(n, count) ==> IndexesFor(n, count)[x] == Index(n.name, {x.column})
  {
    if count > 0 {
      IndexesForKeys(n, count - 1, x);
      assert n.indexed[..count] == n.indexed[..count - 1] + [n.indexed[count - 1]];
    }
  }

  lemma {:induction false} IndexesCreated(s: Schema, n: NewTable, count: nat)
    requires TableOk(n) && count <= |n.indexed|
    requires n.name in s.tables && s.tables[n.name] == n.definition
    ensures Exec(s, IndexOps(n)[..count]).Ok? <==> forall i :: 0 <= i < count ==> Ix(n.name, n.indexed[i]) !in s.indexes
    ensures Exec(s, IndexOps(n)[..count]).Ok? ==>
              Exec(s, IndexOps(n)[..count]) == Ok(s.(indexes := s.indexes + IndexesFor(n, count)))
  {
    var ops := IndexOps(n);
    if count > 0 {
      hide Exec;
      IndexesCreated(s, n, count - 1);
      ExecSnoc(s, ops, count - 1);
      var c := n.indexed[count - 1];
      assert ops[count - 1] == CreateIndex(Ix(n.name, c), n.name, {c});
      assert c in n.indexed && {c} <= n.definition.columns;
      assert Ix(n.name, c) !in IndexesFor(n, count - 1) by {
        IndexesForKeys(n, count - 1, Ix(n.name, c));
      }
      hide TableOk;
      UnionUpdate(s.indexes, IndexesFor(n, count - 1), Ix(n.name, c), Index(n.name, {c}));
    } else {
      assert s.indexes + map[] == s.indexes;
    }
  }

  /** Exactly when a table and its indexes can be created, and what results. */
  lemma TableCreated(s: Schema, n: NewTable)
    requires TableOk(n)
    ensures Exec(s, CreateOps(n)).Ok?
            <==> && n.name !in s.tables && Linked(s, n.name, n.definition)
                 && forall c :: c in n.indexed ==> Ix(n.name, c) !in s.indexes
    ensures Exec(s, CreateOps(n)).Ok? ==>
              Exec(s, CreateOps(n))
              == Ok(Schema(s.tables[n.name := n.definition], s.indexes + IndexesFor(n, |n.indexed|)))
  {
    hide Linked, Exec, IndexesFor, TableOk;
    var create := CreateTable(n.name, n.definition);
    ExecConcat(s, [create], IndexOps(n));
    ExecOne(s, create);
    if n.name !in s.tables && Linked(s, n.name, n.definition) {
      var t := WithTable(s, n.name, n.definition);
      IndexesCreated(t, n, |n.indexed|);
      assert IndexOps(n)[..|n.indexed|] == IndexOps(n);
    }
  }

  // ---------------------------------------------------------------- whole scripts

  lemma {:induction false} CreatedBeforePrefix(script: seq<NewTable>, m: nat, n: nat, t: TableName)
    requires n <= m <= |script|
    ensures CreatedBefore(script, n, t) <==> CreatedBefore(script[..m], n, t)
    decreases n
  {
    if n > 0 {
      CreatedBeforePrefix(script, m, n - 1, t);
    }
  }

  lemma {:induction false} CreatedAt(script: seq<NewTable>, j: nat, n: nat)
    requires j < n <= |script|
    ensures CreatedBefore(script, n, script[j].name)
    decreases n
  {
    if j < n - 1 {
      CreatedAt(script, j, n - 1);
    }
  }

  lemma {:induction false} CreatedWhere(script: seq<NewTable>, n: nat, t: TableName) returns (j: nat)
    requires n <= |script| && CreatedBefore(script, n, t)
    ensures j < n && script[j].name == t
    decreases n
  {
    if script[n - 1].name == t {
      j := n - 1;
    } else {
      j := CreatedWhere(script, n - 1, t);
    }
  }

  lemma CreatedBeforeSnoc(script: seq<NewTable>, t: TableName)
    requires |script| > 0
    ensures CreatedBefore(script, |script|, t)
            <==> CreatedBefore(script[..|script| - 1], |script| - 1, t) || script[|script| - 1].name == t
  {
    CreatedBeforePrefix(script, |script| - 1, |script| - 1, t);
  }

  lemma ScriptOkSnoc(script: seq<NewTable>)
    requires |script| > 0 && ScriptOk(script)
    ensures ScriptOk(script[..|script| - 1]) && TableOk(script[|script| - 1])
    ensures !CreatedBefore(script[..|script| - 1], |script| - 1, script[|script| - 1].name)
  {
    hide TableOk;
    var init, newest := script[..|script| - 1], script[|script| - 1].name;
    if CreatedBefore(init, |init|, newest) {
      var j := CreatedWhere(init, |init|, newest);
    }
  }

  lemma {:induction false} TablesOfKeys(script: seq<NewTable>, t: TableName)
    ensures t in TablesOf(script) <==> CreatedBefore(script, |script|, t)
    ensures ScriptOk(script) && t in TablesOf(script) ==> KEY in TablesOf(script)[t].columns
  {
    if |script| > 0 {
      hide CreatedBefore, ScriptOk;
      TablesOfKeys(script[..|script| - 1], t);
      CreatedBeforeSnoc(script, t);
      if ScriptOk(script) {
        ScriptOkSnoc(script);
      }
    }
  }

  lemma {:induction false} IndexesOfKeys(script: seq<NewTable>, x: IndexName)
    ensures x in IndexesOf(script) ==> x.Ix? && CreatedBefore(script, |script|, x.table)
    ensures x in IndexesOf(script) ==> IndexesOf(script)[x].table == x.table
  {
    if |script| > 0 {
      hide CreatedBefore, IndexesFor;
      var n := script[|script| - 1];
      IndexesOfKeys(script[..|script| - 1], x);
      IndexesForKeys(n, |n.indexed|, x);
      if x.Ix? {
        CreatedBeforeSnoc(script, x.table);
      }
    }
  }

  lemma {:induction false} IndexesOfWhere(script: seq<NewTable>, x: IndexName) returns (i: nat)
    requires x in IndexesOf(script)
    ensures i < |script| && x.Ix? && x.table == script[i].name && x.column in script[i].indexed
  {
    var n := script[|script| - 1];
    IndexesForKeys(n, |n.indexed|, x);
    if x in IndexesFor(n, |n.indexed|) {
      i := |script| - 1;
      assert n.indexed[..|n.indexed|] == n.indexed;
    } else {
      i := IndexesOfWhere(script[..|script| - 1], x);
    }
  }

  lemma ReadySnoc(s: Schema, script: seq<NewTable>)
    requires |script| > 0
    ensures Ready(s, script) <==> Ready(s, script[..|script| - 1]) && ReadyAt(s, script, |script| - 1)
  {
    hide CreatedBefore;
    var init := script[..|script| - 1];
    forall i | 0 <= i < |init| ensures ReadyAt(s, script, i) <==> ReadyAt(s, init, i) {
      forall t ensures CreatedBefore(script, i, t) <==> CreatedBefore(init, i, t) {
        CreatedBeforePrefix(script, |init|, i, t);
      }
    }
  }

  /** The condition for the last table, seen from what the earlier ones built. */
  lemma ReadyForLast(s: Schema, script: seq<NewTable>)
    requires |script| > 0 && ScriptOk(script)
    ensures var init, n := script[..|script| - 1], script[|script| - 1];
            var b := Built(s, init);
            ReadyAt(s, script, |script| - 1)
            <==> && n.name !in b.tables && Linked(b, n.name, n.definition)
                 && forall c :: c in n.indexed ==> Ix(n.name, c) !in b.indexes
  {
    hide TablesOf, IndexesOf, ScriptOk;
    var last := |script| - 1;
    var init, n := script[..last], script[last];
    var b := Built(s, init);
    ScriptOkSnoc(script);
    CreatedBeforePrefix(script, last, last, n.name);
    TablesOfKeys(init, n.name);
    forall c | c in n.indexed ensures Ix(n.name, c) in b.indexes <==> Ix(n.name, c) in s.indexes {
      IndexesOfKeys(init, Ix(n.name, c));
    }
    forall fk | fk in n.definition.fks
      ensures HasKey(b, fk.target) <==> CreatedBefore(script, last, fk.target) || HasKey(s, fk.target)
    {
      CreatedBeforePrefix(script, last, last, fk.target);
      TablesOfKeys(init, fk.target);
    }
  }

  /** Exactly when a creation script runs through, and the schema it ends in. */
  lemma {:induction false} CreateAllExactly(s: Schema, script: seq<NewTable>)
    requires ScriptOk(script)
    ensures Exec(s, CreateAll(script)).Ok? <==> Ready(s, script)
    ensures Ready(s, script) ==> Exec(s, CreateAll(script)) == Ok(Built(s, script))
  {
    if |script| > 0 {
      hide Exec, Ready, ReadyAt, Linked, CreateOps, TableOk;
      var init, n := script[..|script| - 1], script[|script| - 1];
      assert ScriptOk(init);
      CreateAllExactly(s, init);
      ExecConcat(s, CreateAll(init), CreateOps(n));
      ReadySnoc(s, script);
      if Ready(s, init) {
        var b := Built(s, init);
        TableCreated(b, n);
        ReadyForLast(s, script);
        BuiltSnoc(s, script);
      }
    } else {
      BuiltNothing(s);
    }
  }

  lemma BuiltSnoc(s: Schema, script: seq<NewTable>)
    requires |script| > 0
    ensures var b, n := Built(s, script[..|script| - 1]), script[|script| - 1];
            Built(s, script) == Schema(b.tables[n.name := n.definition], b.indexes + IndexesFor(n, |n.indexed|))
  {
    hide IndexesFor;
    var init, n := script[..|script| - 1], script[|script| - 1];
    UnionUpdate(s.tables, TablesOf(init), n.name, n.definition);
    UnionAssociative(s.indexes, IndexesOf(init), IndexesFor(n, |n.indexed|));
  }

  lemma UnionUpdate<K, V>(a: map<K, V>, b: map<K, V>, key: K, value: V)
    ensures a + b[key := value] == (a + b)[key := value]
  {
  }

  lemma UnionAssociative<K, V>(a: map<K, V>, b: map<K, V>, c: map<K, V>)
    ensures a + (b + c) == (a + b) + c
  {
  }

  lemma BuiltNothing(s: Schema)
    ensures Built(s, []) == s
  {
  }

  /** Nothing in the built schema points to the newest table except itself. */
  lemma NewestUnreferenced(s: Schema, script: seq<NewTable>)
    requires |script| > 0 && ScriptOk(script) && Sound(s) && Ready(s, script)
    ensures !Referenced(Built(s, script), script[|script| - 1].name)
  {
    hide TablesOf, IndexesOf;
    var b, newest := Built(s, script), script[|script| - 1].name;
    assert ReadyAt(s, script, |script| - 1);
    forall u, fk | u in b.tables && u != newest && fk in b.tables[u].fks ensures fk.target != newest {
      if u in TablesOf(script) {
        DefinitionOf(script, u);
        var i :| 0 <= i < |script| && script[i].name == u && TablesOf(script)[u] == script[i].definition;
        assert ReadyAt(s, script, i);
        if CreatedBefore(script, i, newest) {
          var j := CreatedWhere(script, i, newest);
        }
      } else {
        assert u in s.tables && Linked(s, u, s.tables[u]);
      }
    }
  }

  lemma {:induction false} DefinitionOf(script: seq<NewTable>, t: TableName)
    requires t in TablesOf(script)
    ensures exists i :: 0 <= i < |script| && script[i].name == t && TablesOf(script)[t] == script[i].definition
  {
    var init, n := script[..|script| - 1], script[|script| - 1];
    if t == n.name {
      assert script[|script| - 1].name == t;
    } else {
      DefinitionOf(init, t);
      var i :| 0 <= i < |init| && init[i].name == t && TablesOf(init)[t] == init[i].definition;
      assert script[i] == init[i];
    }
  }

  /** The newest name is free in the start and in what the earlier tables built. */
  lemma NewestIsNew(s: Schema, script: seq<NewTable>)
    requires |script| > 0 && ScriptOk(script) && Sound(s) && Ready(s, script)
    ensures var init, n := script[..|script| - 1], script[|script| - 1];
            && n.name !in Built(s, init).tables
            && (forall c :: c in n.indexed ==> Ix(n.name, c) !in Built(s, init).indexes)
            && (forall x :: x in Built(s, init).indexes ==> Built(s, init).indexes[x].table != n.name)
  {
    hide TablesOf, IndexesOf, CreatedBefore;
    var init, n := script[..|script| - 1], script[|script| - 1];
    assert ReadyAt(s, script, |script| - 1);
    ScriptOkSnoc(script);
    TablesOfKeys(init, n.name);
    forall x ensures x in IndexesOf(init) ==> x.Ix? && x.table != n.name && IndexesOf(init)[x].table != n.name {
      IndexesOfKeys(init, x);
    }
    forall x | x in s.indexes ensures s.indexes[x].table != n.name {
      assert s.indexes[x].table in s.tables;
    }
  }

  lemma {:induction false} EntryBuilt(script: seq<NewTable>, i: nat)
    requires ScriptOk(script) && i < |script|
    ensures script[i].name in TablesOf(script) && TablesOf(script)[script[i].name] == script[i].definition
  {
    if i < |script| - 1 {
      ScriptOkSnoc(script);
      EntryBuilt(script[..|script| - 1], i);
    }
  }

  /** Dropping the newest table, with or without its indexes already gone, undoes its creation. */
  lemma DropNewest(s: Schema, script: seq<NewTable>, at: Schema)
    requires |script| > 0 && ScriptOk(script) && Sound(s) && Ready(s, script)
    requires at.tables == Built(s, script).tables
    requires var n := script[|script| - 1];
             forall x :: (x in at.indexes && at.indexes[x].table != n.name)
                         <==> (x in Built(s, script).indexes && Built(s, script).indexes[x].table != n.name)
    requires forall x :: x in at.indexes && x in Built(s, script).indexes ==>
               at.indexes[x] == Built(s, script).indexes[x]
    ensures Apply(at, DropTable(script[|script| - 1].name)) == Ok(Built(s, script[..|script| - 1]))
  {
    hide Built, IndexesFor, CreatedBefore, Sound, Ready, ScriptOk, TableOk;
    var init, n := script[..|script| - 1], script[|script| - 1];
    var b, before := Built(s, script), Built(s, init);
    BuiltSnoc(s, script);
    NewestUnreferenced(s, script);
    NewestIsNew(s, script);
    assert !Referenced(at, n.name);
    assert at.tables - {n.name} == before.tables;
    forall x
      ensures x in before.indexes <==> x in b.indexes && b.indexes[x].table != n.name
      ensures x in before.indexes ==> before.indexes[x] == b.indexes[x]
    {
      IndexesForKeys(n, |n.indexed|, x);
    }
    var after := Apply(at, DropTable(n.name)).schema;
    assert after.indexes == before.indexes;
  }

  lemma DropNewestOfBuilt(s: Schema, script: seq<NewTable>)
    requires |script| > 0 && ScriptOk(script) && Sound(s) && Ready(s, script)
    ensures Apply(Built(s, script), DropTable(script[|script| - 1].name)) == Ok(Built(s, script[..|script| - 1]))
  {
    hide Apply, Sound, Ready, Built, ScriptOk;
    DropNewest(s, script, Built(s, script));
  }

  /** The table is dropped before the one at position `i`: it comes later in the script. */
  ghost predicate DroppedBefore(script: seq<NewTable>, i: nat, u: TableName) {
    exists j :: i < j < |script| && script[j].name == u
  }

  /** Every table of the script is there, and only itself and tables that go before it point to it. */
  ghost predicate Droppable(s: Schema, script: seq<NewTable>) {
    && (forall i :: 0 <= i < |script| ==> script[i].name in s.tables)
    && (forall u, fk, i :: u in s.tables && fk in s.tables[u].fks && 0 <= i < |script| && fk.target == script[i].name
          ==> u == fk.target || DroppedBefore(script, i, u))
  }

  lemma DroppableSnoc(s: Schema, script: seq<NewTable>)
    requires |script| > 0 && ScriptOk(script) && script[|script| - 1].name in s.tables
    ensures var init, newest := script[..|script| - 1], script[|script| - 1].name;
            Droppable(s, script)
            <==> !Referenced(s, newest) && Droppable(Apply(s, DropTable(newest)).schema, init)
  {
    hide TableOk;
    var last := |script| - 1;
    var init, newest := script[..last], script[last].name;
    var d := Apply(s, DropTable(newest)).schema;
    forall i, u | 0 <= i < last
      ensures DroppedBefore(script, i, u) <==> DroppedBefore(init, i, u) || u == newest
    {
      if DroppedBefore(script, i, u) {
        var j :| i < j < |script| && script[j].name == u;
        assert j < last ==> init[j].name == u;
      }
      if DroppedBefore(init, i, u) {
        var j :| i < j < |init| && init[j].name == u;
        assert script[j].name == u;
      }
    }
    if Droppable(s, script) {
      assert forall u :: !DroppedBefore(script, last, u);
      assert !Referenced(s, newest);
    }
    if !Referenced(s, newest) && Droppable(d, init) {
      assert d.tables == s.tables - {newest};
      forall u, fk, i | u in s.tables && fk in s.tables[u].fks && 0 <= i < |script| && fk.target == script[i].name
        ensures u == fk.target || DroppedBefore(script, i, u)
      {
        if i < last && u != newest {
          assert fk in d.tables[u].fks && fk.target == init[i].name;
        }
      }
      forall i | 0 <= i < |script| ensures script[i].name in s.tables {
        assert i < last ==> init[i].name in d.tables;
      }
    }
  }

  /** When dropping the tables newest first runs through, from any schema. */
  lemma {:induction false} DropAllExactly(s: Schema, script: seq<NewTable>)
    requires ScriptOk(script)
    ensures Exec(s, DropAll(script)).Ok? <==> Droppable(s, script)
    decreases |script|
  {
    if |script| > 0 {
      hide Exec, TableOk, Droppable, Referenced;
      var init, newest := script[..|script| - 1], script[|script| - 1].name;
      ExecConcat(s, [DropTable(newest)], DropAll(init));
      ExecOne(s, DropTable(newest));
      if newest in s.tables {
        DroppableSnoc(s, script);
        DropAllExactly(Apply(s, DropTable(newest)).schema, init);
      } else {
        NotDroppable(s, script);
      }
    }
  }

  lemma NotDroppable(s: Schema, script: seq<NewTable>)
    requires |script| > 0 && script[|script| - 1].name !in s.tables
    ensures !Droppable(s, script)
  {
  }

  /** Round trip with plain table drops: the downgrade succeeds and restores the start. */
  lemma {:induction false} DropAllRestores(s: Schema, script: seq<NewTable>)
    requires ScriptOk(script) && Sound(s) && Ready(s, script)
    ensures Exec(Built(s, script), DropAll(script)) == Ok(s)
  {
    if |script| > 0 {
      hide Exec, Apply, Sound, Ready, Built, TableOk, Linked, ScriptOk;
      var init, n := script[..|script| - 1], script[|script| - 1];
      DropNewestOfBuilt(s, script);
      ExecOne(Built(s, script), DropTable(n.name));
      ExecConcat(Built(s, script), [DropTable(n.name)], DropAll(init));
      ReadySnoc(s, script);
      ScriptOkSnoc(script);
      DropAllRestores(s, init);
    } else {
      BuiltNothing(s);
    }
  }

  lemma {:induction false} IndexesDropped(s: Schema, n: NewTable, count: nat)
    requires count <= |n.indexed|
    requires NoRepeats(n.indexed)
    requires forall c :: c in n.indexed ==> Ix(n.name, c) in s.indexes
    ensures Exec(s, DropIndexOps(n)[..count]) == Ok(s.(indexes := s.indexes - LastIndexes(n, count)))
  {
    var ops := DropIndexOps(n);
    if count > 0 {
      hide Exec, LastIndexes, NoRepeats;
      IndexesDropped(s, n, count - 1);
      ExecSnoc(s, ops, count - 1);
      OneIndexMore(n, count);
      var x, less := Ix(n.name, n.indexed[|n.indexed| - count]), LastIndexes(n, count - 1);
      assert n.indexed[|n.indexed| - count] in n.indexed;
      assert s.indexes - LastIndexes(n, count) == s.indexes - less - {x};
    } else {
      assert s.indexes - LastIndexes(n, 0) == s.indexes;
    }
  }

  /** The names of the last `count` indexes of the table. */
  function LastIndexes(n: NewTable, count: nat): set<IndexName>
    requires count <= |n.indexed|
  {
    set i | |n.indexed| - count <= i < |n.indexed| :: Ix(n.name, n.indexed[i])
  }

  lemma OneIndexMore(n: NewTable, count: nat)
    requires 0 < count <= |n.indexed| && NoRepeats(n.indexed)
    ensures var x := Ix(n.name, n.indexed[|n.indexed| - count]);
            x !in LastIndexes(n, count - 1) && LastIndexes(n, count) == LastIndexes(n, count - 1) + {x}
  {
  }

  /** Round trip with every index dropped by name. */
  lemma {:induction false} UndoAllRestores(s: Schema, script: seq<NewTable>)
    requires ScriptOk(script) && Sound(s) && Ready(s, script)
    ensures Exec(Built(s, script), UndoAll(script)) == Ok(s)
  {
    if |script| > 0 {
      hide Exec, Apply, Sound, Ready, Built;
      var init, n := script[..|script| - 1], script[|script| - 1];
      assert ScriptOk(init) && TableOk(n);
      UndoNewest(s, script);
      ExecConcat(Built(s, script), UndoOps(n), UndoAll(init));
      ReadySnoc(s, script);
      UndoAllRestores(s, init);
    } else {
      BuiltNothing(s);
    }
  }

  lemma UndoNewest(s: Schema, script: seq<NewTable>)
    requires |script| > 0 && ScriptOk(script) && Sound(s) && Ready(s, script)
    ensures var n := script[|script| - 1];
            Exec(Built(s, script), UndoOps(n)) == Ok(Built(s, script[..|script| - 1]))
  {
    hide Exec, Apply, Sound, Ready, TablesOf, IndexesOf, IndexesFor;
    var n := script[|script| - 1];
    var b := Built(s, script);
    BuiltSnoc(s, script);
    assert TableOk(n);
    assert n.indexed[..|n.indexed|] == n.indexed;
    forall c | c in n.indexed ensures Ix(n.name, c) in b.indexes {
      IndexesForKeys(n, |n.indexed|, Ix(n.name, c));
    }
    IndexesDropped(b, n, |n.indexed|);
    assert DropIndexOps(n)[..|n.indexed|] == DropIndexOps(n);
    var gone := LastIndexes(n, |n.indexed|);
    var at := b.(indexes := b.indexes - gone);
    forall x | x in gone ensures x in b.indexes && b.indexes[x].table == n.name {
      IndexesForKeys(n, |n.indexed|, x);
    }
    DropNewest(s, script, at);
    ExecConcat(b, DropIndexOps(n), [DropTable(n.name)]);
    ExecOne(at, DropTable(n.name));
  }
}
