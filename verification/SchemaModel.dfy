/** A relational schema and the schema operations that migrations are made of. */
module SchemaModel {

  /** Tables: the ones the modelled revisions speak of, numbered in the order in which those revisions
      create them, and any other. */
  datatype TableName = Known(position: nat) | OtherTable(name: string)

  // finance core
  const ACCOUNT_GROUPS := Known(0)
  const CHART_OF_ACCOUNTS := Known(1)
  const FISCAL_YEARS := Known(2)
  const FISCAL_PERIODS := Known(3)
  const CURRENCIES := Known(4)
  const EXCHANGE_RATES := Known(5)
  const COST_CENTERS := Known(6)
  const ACCOUNTING_DIMENSIONS := Known(7)
  const JOURNAL_TYPES := Known(8)
  const JOURNALS := Known(9)
  const JOURNAL_LINES := Known(10)
  const TAX_CATEGORIES := Known(11)
  const TAX_RATES := Known(12)
  const POSTING_RULES := Known(13)
  const ACCOUNTING_EVENTS := Known(14)

  // finance operations
  const CUSTOMER_INVOICES := Known(15)
  const CUSTOMER_INVOICE_LINES := Known(16)
  const CUSTOMER_CREDIT_NOTES := Known(17)
  const CUSTOMER_DEBIT_NOTES := Known(18)
  const CUSTOMER_LEDGER_ENTRIES := Known(19)
  const SUPPLIER_BILLS := Known(20)
  const SUPPLIER_BILL_LINES := Known(21)
  const SUPPLIER_CREDIT_NOTES := Known(22)
  const SUPPLIER_DEBIT_NOTES := Known(23)
  const SUPPLIER_LEDGER_ENTRIES := Known(24)
  const BANK_ACCOUNTS := Known(25)
  const RECEIPT_VOUCHERS := Known(26)
  const PAYMENT_VOUCHERS := Known(27)
  const PAYMENT_ALLOCATIONS := Known(28)
  const BANK_TRANSACTIONS := Known(29)
  const BANK_STATEMENTS := Known(30)
  const BANK_STATEMENT_LINES := Known(31)
  const BANK_RECONCILIATIONS := Known(32)
  const BANK_RECONCILIATION_ITEMS := Known(33)
  const ASSET_CATEGORIES := Known(34)
  const FIXED_ASSETS := Known(35)
  const DEPRECIATION_SCHEDULES := Known(36)
  const BUDGETS := Known(37)
  const BUDGET_LINES := Known(38)
  const FINANCIAL_STATEMENT_SNAPSHOTS := Known(39)

  // stock engine, warehouse operations, inventory foundation
  const INVENTORY_TRANSACTION_TYPES := Known(40)
  const INVENTORY_ADJUSTMENTS := Known(41)
  const OPENING_STOCKS := Known(42)
  const STOCK_BALANCES := Known(43)
  const STOCK_LEDGERS := Known(44)
  const GOODS_ISSUES := Known(45)
  const GOODS_RECEIPTS := Known(46)
  const STOCK_TRANSFERS := Known(47)
  const GOODS_ISSUE_ITEMS := Known(48)
  const GOODS_RECEIPT_ITEMS := Known(49)
  const STOCK_TRANSFER_ITEMS := Known(50)
  const PRODUCT_WAREHOUSES := Known(51)
  const INVENTORY_POLICIES := Known(52)

  // created elsewhere
  const DUMMY_PRODUCTS := Known(53)
  const STOCK_RESERVATIONS := Known(54)
  const BATCHES := Known(55)
  const PRODUCTS := Known(56)
  const WAREHOUSES := Known(57)
  const STORAGE_LOCATIONS := Known(58)
  const UNIT_OF_MEASURES := Known(59)
  const USERS := Known(60)
  const EMPLOYEES := Known(61)
  const DEPARTMENTS := Known(62)
  const CUSTOMERS := Known(63)
  const SALES_ORDERS := Known(64)
  const SUPPLIERS := Known(65)
  const PURCHASE_ORDERS := Known(66)

  /** Index names share one namespace.  `Ix(t, c)` is the conventional `ix_<t>_<c>`; the two ledger
      entry tables shorten their own name in it. */
  datatype IndexName = Ix(table: TableName, column: string) | OtherIndex(name: string)

  /** A foreign key points to the `id` column of its target. */
  datatype ForeignKey = ForeignKey(name: string, column: string, target: TableName)

  datatype Table = Table(columns: set<string>, nullable: set<string>, fks: set<ForeignKey>)

  datatype Index = Index(table: TableName, columns: set<string>)

  datatype Schema = Schema(tables: map<TableName, Table>, indexes: map<IndexName, Index>)

  const KEY := "id"

  /** The constraints of a `create_table` are told apart by their column. */
  function References(column: string, target: TableName): ForeignKey {
    ForeignKey(column, column, target)
  }

  datatype Op =
    | CreateTable(table: TableName, definition: Table)
    | DropTable(table: TableName)
    | AddColumn(table: TableName, column: string, nullable: bool)
    | DropColumn(table: TableName, column: string)
    | CreateIndex(index: IndexName, table: TableName, columns: set<string>)
    | DropIndex(index: IndexName)
    | CreateForeignKey(name: string, table: TableName, target: TableName, column: string)
    | DropConstraint(name: string, table: TableName)
    | AlterNullable(table: TableName, column: string)

  /** `Refused` is the database error; the schema is what the operation found. */
  datatype Outcome = Ok(schema: Schema) | Refused(schema: Schema)

  /** Another table has a foreign key to `t`. */
  predicate Referenced(s: Schema, t: TableName) {
    exists u :: u in s.tables && u != t && exists fk :: fk in s.tables[u].fks && fk.target == t
  }

  predicate HasKey(s: Schema, t: TableName) {
    t in s.tables && KEY in s.tables[t].columns
  }

  /** Every foreign key of the definition leaves from one of its columns and arrives at a key. */
  predicate Linked(s: Schema, t: TableName, definition: Table) {
    forall fk :: fk in definition.fks ==>
      && fk.column in definition.columns
      && if fk.target == t then KEY in definition.columns else HasKey(s, fk.target)
  }

  function WithTable(s: Schema, t: TableName, definition: Table): Schema {
    s.(tables := s.tables[t := definition])
  }

  function Apply(s: Schema, op: Op): Outcome {
    match op
    case CreateTable(t, definition) =>
      if t in s.tables || !Linked(s, t, definition) then Refused(s)
      else Ok(WithTable(s, t, definition))
    case DropTable(t) =>
      if t !in s.tables || Referenced(s, t) then Refused(s)
      else Ok(Schema(s.tables - {t}, map x | x in s.indexes && s.indexes[x].table != t :: s.indexes[x]))
    case AddColumn(t, c, nullable) =>
      if t !in s.tables || c in s.tables[t].columns then Refused(s)
      else
        var was := s.tables[t];
        Ok(WithTable(s, t, was.(columns := was.columns + {c},
                                nullable := if nullable then was.nullable + {c} else was.nullable - {c})))
    case DropColumn(t, c) =>
      // indexes and constraints of the column go with it
      if t !in s.tables || c !in s.tables[t].columns || (c == KEY && Referenced(s, t)) then Refused(s)
      else
        var was := s.tables[t];
        Ok(Schema(s.tables[t := Table(was.columns - {c}, was.nullable - {c},
                                      set fk | fk in was.fks && fk.column != c && !(c == KEY && fk.target == t))],
                  map x | x in s.indexes && !(s.indexes[x].table == t && c in s.indexes[x].columns) :: s.indexes[x]))
    case CreateIndex(x, t, columns) =>
      if x in s.indexes || t !in s.tables || !(columns <= s.tables[t].columns) then Refused(s)
      else Ok(s.(indexes := s.indexes[x := Index(t, columns)]))
    case DropIndex(x) =>
      if x !in s.indexes then Refused(s) else Ok(s.(indexes := s.indexes - {x}))
    case CreateForeignKey(name, t, target, c) =>
      if t !in s.tables || c !in s.tables[t].columns || !HasKey(s, target)
         || exists fk :: fk in s.tables[t].fks && fk.name == name then Refused(s)
      else Ok(WithTable(s, t, s.tables[t].(fks := s.tables[t].fks + {ForeignKey(name, c, target)})))
    case DropConstraint(name, t) =>
      if t !in s.tables || !exists fk :: fk in s.tables[t].fks && fk.name == name then Refused(s)
      else Ok(WithTable(s, t, s.tables[t].(fks := set fk | fk in s.tables[t].fks && fk.name != name)))
    case AlterNullable(t, c) =>
      if t !in s.tables || c !in s.tables[t].columns then Refused(s)
      else Ok(WithTable(s, t, s.tables[t].(nullable := s.tables[t].nullable + {c})))
  }

  /** Run operations until one is refused. */
  function Exec(s: Schema, ops: seq<Op>): Outcome {
    if |ops| == 0 then Ok(s)
    else
      match Exec(s, ops[..|ops| - 1])
      case Refused(at) => Refused(at)
      case Ok(at) => Apply(at, ops[|ops| - 1])
  }

  // ---------------------------------------------------------------- referential safety

  /** No dangling foreign key and no dangling index. */
  ghost predicate Sound(s: Schema) {
    && (forall t :: t in s.tables ==> Linked(s, t, s.tables[t]))
    && (forall x :: x in s.indexes ==>
          s.indexes[x].table in s.tables && s.indexes[x].columns <= s.tables[s.indexes[x].table].columns)
  }

  lemma DropTableSound(s: Schema, t: TableName)
    requires Sound(s)
    ensures Sound(Apply(s, DropTable(t)).schema)
  {
    var d := Apply(s, DropTable(t)).schema;
    forall u | u in d.tables ensures Linked(d, u, d.tables[u]) {
      assert Linked(s, u, s.tables[u]);
    }
  }

  lemma DropColumnSound(s: Schema, t: TableName, c: string)
    requires Sound(s)
    ensures Sound(Apply(s, DropColumn(t, c)).schema)
  {
    var d := Apply(s, DropColumn(t, c)).schema;
    forall u | u in d.tables ensures Linked(d, u, d.tables[u]) {
      assert Linked(s, u, s.tables[u]);
    }
  }

  /** Replacing one table by one that keeps its columns and is linked keeps everything sound. */
  lemma TableReplacedSound(s: Schema, t: TableName, definition: Table)
    requires Sound(s) && Linked(s, t, definition)
    requires t in s.tables ==> s.tables[t].columns <= definition.columns
    ensures Sound(WithTable(s, t, definition))
  {
    var d := WithTable(s, t, definition);
    forall u | u in d.tables ensures Linked(d, u, d.tables[u]) {
      assert u != t ==> Linked(s, u, s.tables[u]);
    }
  }

  /** Every operation keeps referential safety, whether it succeeds or is refused. */
  lemma ApplySound(s: Schema, op: Op)
    requires Sound(s)
    ensures Sound(Apply(s, op).schema)
  {
    match op
    case DropTable(t) => DropTableSound(s, t);
    case DropColumn(t, c) => DropColumnSound(s, t, c);
    case CreateIndex(x, t, columns) =>
    case DropIndex(x) =>
    case CreateTable(t, definition) =>
      if Apply(s, op).Ok? {
        TableReplacedSound(s, t, definition);
      }
    case _ =>
      if Apply(s, op).Ok? {
        var t := op.table;
        assert Linked(s, t, s.tables[t]);
        TableReplacedSound(s, t, Apply(s, op).schema.tables[t]);
      }
  }

  /** Referential safety holds in every intermediate schema of every run. */
  lemma {:induction false} ExecSound(s: Schema, ops: seq<Op>)
    requires Sound(s)
    ensures Sound(Exec(s, ops).schema)
    ensures forall n :: 0 <= n <= |ops| ==> Sound(Exec(s, ops[..n]).schema)
  {
    if |ops| > 0 {
      hide Sound, Apply;
      var init := ops[..|ops| - 1];
      ExecSound(s, init);
      ApplySound(Exec(s, init).schema, ops[|ops| - 1]);
      forall n | 0 <= n <= |ops| ensures Sound(Exec(s, ops[..n]).schema) {
        if n < |ops| {
          assert ops[..n] == init[..n];
        } else {
          assert ops[..n] == ops;
        }
      }
    } else {
      assert ops == [];
    }
  }

  lemma {:induction false} ExecConcat(s: Schema, first: seq<Op>, second: seq<Op>)
    ensures Exec(s, first + second)
         == match Exec(s, first) case Ok(at) => Exec(at, second) case Refused(at) => Refused(at)
    decreases |second|
  {
    hide Apply;
    if |second| == 0 {
      assert first + second == first;
    } else {
      var init := second[..|second| - 1];
      assert (first + second)[..|first + second| - 1] == first + init;
      ExecConcat(s, first, init);
    }
  }

  lemma ExecSnoc(s: Schema, ops: seq<Op>, n: nat)
    requires n < |ops|
    ensures Exec(s, ops[..n + 1])
         == match Exec(s, ops[..n]) case Ok(at) => Apply(at, ops[n]) case Refused(at) => Refused(at)
  {
    hide Apply;
    assert ops[..n + 1][..n] == ops[..n];
  }

  lemma IndexDropped(s: Schema, x: IndexName)
    requires x in s.indexes
    ensures Apply(s, DropIndex(x)) == Ok(s.(indexes := s.indexes - {x}))
  {
  }

  lemma ExecOne(s: Schema, op: Op)
    ensures Exec(s, [op]) == Apply(s, op)
  {
    hide Apply;
    assert [op][..0] == [];
    assert Exec(s, []) == Ok(s);
  }

  /** The connection a migration runs on. */
  class Connection {
    var schema: Schema

    constructor (schema: Schema)
      ensures this.schema == schema
    {
      this.schema := schema;
    }

    /** One schema operation; false stands for the exception it raises. */
    method Execute(op: Op) returns (ok: bool)
      modifies this
      ensures (if ok then Ok(schema) else Refused(schema)) == Apply(old(schema), op)
      ensures Sound(old(schema)) ==> Sound(schema)
    {
      var outcome := Apply(schema, op);
      if Sound(schema) {
        ApplySound(schema, op);
      }
      schema := outcome.schema;
      ok := outcome.Ok?;
    }

    /** The straight-line body of an `upgrade` or `downgrade`: the first exception ends it. */
    method Migrate(ops: seq<Op>) returns (ok: bool)
      modifies this
      ensures (if ok then Ok(schema) else Refused(schema)) == Exec(old(schema), ops)
      ensures Sound(old(schema)) ==> Sound(schema)
    {
      ok := true;
      var i := 0;
      while i < |ops|
        invariant 0 <= i <= |ops| && ok
        invariant Exec(old(schema), ops[..i]) == Ok(schema)
        invariant Sound(old(schema)) ==> Sound(schema)
      {
        hide Apply, Sound;
        assert ops[..i + 1][..i] == ops[..i];
        ok := Execute(ops[i]);
        i := i + 1;
        if !ok {
          RefusedEarly(old(schema), ops, i);
          return;
        }
      }
      assert ops[..i] == ops;
    }
  }

  lemma RefusedEarly(s: Schema, ops: seq<Op>, n: nat)
    requires n <= |ops| && Exec(s, ops[..n]).Refused?
    ensures Exec(s, ops) == Exec(s, ops[..n])
  {
    assert ops == ops[..n] + ops[n..];
    ExecConcat(s, ops[..n], ops[n..]);
  }

  /** Tables with nothing but their keys. */
  function Bare(tables: set<TableName>): Schema {
    Schema(map t | t in tables :: Table({KEY}, {}, {}), map[])
  }

  lemma BareSound(tables: set<TableName>)
    ensures Sound(Bare(tables)) && forall t :: t in tables ==> HasKey(Bare(tables), t)
  {
  }
}
