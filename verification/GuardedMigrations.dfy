/** Two revisions of guarded columns: stock ledger enhancements (v0.6.1) and advanced inventory tracking
    (v0.6.3). */
module GuardedMigrations {
  import opened SchemaModel
  import opened CreationScripts
  import opened GuardedColumns
  import opened ColumnAdditions
  import opened ColumnScripts
  import opened ColumnTraces
  import opened ColumnRoundTrips

  function Plain(t: TableName, c: string, nullable: bool): ColumnStep {
    ColumnStep(t, c, nullable, NoLink, false)
  }

  function Indexed(t: TableName, c: string, nullable: bool): ColumnStep {
    ColumnStep(t, c, nullable, NoLink, true)
  }

  function Linking(t: TableName, c: string, name: string, target: TableName): ColumnStep {
    ColumnStep(t, c, true, Link(name, target), false)
  }

  /** The steps of one table. */
  ghost predicate BlockOk(t: TableName, steps: seq<ColumnStep>) {
    StepsOk(steps) && forall i :: 0 <= i < |steps| ==> steps[i].table == t
  }

  lemma BlocksApart(a: seq<ColumnStep>, b: seq<ColumnStep>)
    requires StepsOk(a) && StepsOk(b)
    requires forall i, j :: 0 <= i < |a| && 0 <= j < |b| ==> a[i].table != b[j].table
    ensures StepsOk(a + b)
  {
    forall i, j | 0 <= i < j < |a + b| ensures Apart((a + b)[i], (a + b)[j]) {
      if j < |a| {
        assert Apart(a[i], a[j]);
      } else if i >= |a| {
        assert Apart(b[i - |a|], b[j - |a|]);
      } else {
        assert a[i].table != b[j - |a|].table;
      }
    }
  }

  // ---------------------------------------------------------------- v0.6.3: advanced inventory tracking

  function ProductTracking(): (steps: seq<ColumnStep>)
    ensures BlockOk(PRODUCTS, steps)
  {
    [Plain(PRODUCTS, "tracking_type", false)]
  }

  function LedgerTracking(): (steps: seq<ColumnStep>)
    ensures BlockOk(STOCK_LEDGERS, steps)
  {
    [ColumnStep(STOCK_LEDGERS, "batch_id", true, Link("fk_stock_ledgers_batch_id", BATCHES), true),
     Plain(STOCK_LEDGERS, "serial_numbers", true)]
  }

  function ReservationTracking(): (steps: seq<ColumnStep>)
    ensures BlockOk(STOCK_RESERVATIONS, steps)
  {
    [Plain(STOCK_RESERVATIONS, "released_at", true), Plain(STOCK_RESERVATIONS, "consumed_at", true),
     Plain(STOCK_RESERVATIONS, "notes", true), Plain(STOCK_RESERVATIONS, "reference_type", true),
     Plain(STOCK_RESERVATIONS, "reference_id", true)]
  }

  function ReceiptItemTracking(): (steps: seq<ColumnStep>)
    ensures BlockOk(GOODS_RECEIPT_ITEMS, steps)
  {
    [Linking(GOODS_RECEIPT_ITEMS, "batch_id", "fk_goods_receipt_items_batch_id", BATCHES),
     Plain(GOODS_RECEIPT_ITEMS, "batch_number", true), Plain(GOODS_RECEIPT_ITEMS, "expiry_date", true),
     Plain(GOODS_RECEIPT_ITEMS, "manufacturing_date", true), Plain(GOODS_RECEIPT_ITEMS, "serial_numbers", true)]
  }

  function IssueItemTracking(): (steps: seq<ColumnStep>)
    ensures BlockOk(GOODS_ISSUE_ITEMS, steps)
  {
    [Linking(GOODS_ISSUE_ITEMS, "batch_id", "fk_goods_issue_items_batch_id", BATCHES),
     Plain(GOODS_ISSUE_ITEMS, "serial_numbers", true),
     Linking(GOODS_ISSUE_ITEMS, "reservation_id", "fk_goods_issue_items_reservation_id", STOCK_RESERVATIONS)]
  }

  function TransferItemTracking(): (steps: seq<ColumnStep>)
    ensures BlockOk(STOCK_TRANSFER_ITEMS, steps)
  {
    [Linking(STOCK_TRANSFER_ITEMS, "batch_id", "fk_stock_transfer_items_batch_id", BATCHES),
     Plain(STOCK_TRANSFER_ITEMS, "serial_numbers", true)]
  }

  function TrackingSteps(): (steps: seq<ColumnStep>)
    ensures StepsOk(steps)
  {
    var a, b, c := ProductTracking(), LedgerTracking(), ReservationTracking();
    var d, e, f := ReceiptItemTracking(), IssueItemTracking(), TransferItemTracking();
    assert StepsOk(a + b + c + d + e + f) by {
      hide ProductTracking, LedgerTracking, ReservationTracking, ReceiptItemTracking, IssueItemTracking,
           TransferItemTracking, StepsOk;
      BlocksApart(a, b);
      BlocksApart(a + b, c);
      BlocksApart(a + b + c, d);
      BlocksApart(a + b + c + d, e);
      BlocksApart(a + b + c + d + e, f);
    }
    a + b + c + d + e + f
  }

  function Reversed(steps: seq<ColumnStep>): (r: seq<ColumnStep>)
    ensures |r| == |steps| && forall i :: 0 <= i < |r| ==> r[i] == steps[|steps| - 1 - i]
  {
    seq(|steps|, i requires 0 <= i < |steps| => steps[|steps| - 1 - i])
  }

  lemma ReversedOk(steps: seq<ColumnStep>)
    requires StepsOk(steps)
    ensures StepsOk(Reversed(steps)) && forall step :: step in steps <==> step in Reversed(steps)
  {
    var r := Reversed(steps);
    forall i, j | 0 <= i < j < |r| ensures Apart(r[i], r[j]) {
      assert Apart(steps[|steps| - 1 - j], steps[|steps| - 1 - i]);
    }
    forall step | step in steps ensures step in r {
      var i :| 0 <= i < |steps| && steps[i] == step;
      assert r[|steps| - 1 - i] == step;
    }
  }

  function TrackingUpgrade(s: Schema, inspected: bool, faults: Faults): Outcome {
    AddAll(s, TrackingSteps(), Guard(inspected, true), faults)
  }

  /** The downgrade takes tables and columns in exactly the reverse order. */
  function TrackingDowngrade(s: Schema, inspected: bool, faults: Faults): Outcome {
    RemoveAll(s, Reversed(TrackingSteps()), inspected, faults)
  }

  /** Table by table and column by column, as the downgrade lists them. */
  lemma TrackingRemovalsListed()
    ensures Reversed(TrackingSteps())
         == [Plain(STOCK_TRANSFER_ITEMS, "serial_numbers", true),
             Linking(STOCK_TRANSFER_ITEMS, "batch_id", "fk_stock_transfer_items_batch_id", BATCHES)]
            + [Linking(GOODS_ISSUE_ITEMS, "reservation_id", "fk_goods_issue_items_reservation_id", STOCK_RESERVATIONS),
               Plain(GOODS_ISSUE_ITEMS, "serial_numbers", true),
               Linking(GOODS_ISSUE_ITEMS, "batch_id", "fk_goods_issue_items_batch_id", BATCHES)]
            + [Plain(GOODS_RECEIPT_ITEMS, "serial_numbers", true),
               Plain(GOODS_RECEIPT_ITEMS, "manufacturing_date", true), Plain(GOODS_RECEIPT_ITEMS, "expiry_date", true),
               Plain(GOODS_RECEIPT_ITEMS, "batch_number", true),
               Linking(GOODS_RECEIPT_ITEMS, "batch_id", "fk_goods_receipt_items_batch_id", BATCHES)]
            + [Plain(STOCK_RESERVATIONS, "reference_id", true), Plain(STOCK_RESERVATIONS, "reference_type", true),
               Plain(STOCK_RESERVATIONS, "notes", true), Plain(STOCK_RESERVATIONS, "consumed_at", true),
               Plain(STOCK_RESERVATIONS, "released_at", true)]
            + [Plain(STOCK_LEDGERS, "serial_numbers", true),
               ColumnStep(STOCK_LEDGERS, "batch_id", true, Link("fk_stock_ledgers_batch_id", BATCHES), true)]
            + [Plain(PRODUCTS, "tracking_type", false)]
  {
    hide StepsOk, BlockOk, Plain, Linking, Reversed, ProductTracking, LedgerTracking, ReservationTracking,
         ReceiptItemTracking, IssueItemTracking, TransferItemTracking;
    var a, b, c := ProductTracking(), LedgerTracking(), ReservationTracking();
    var d, e, f := ReceiptItemTracking(), IssueItemTracking(), TransferItemTracking();
    EarlierBlocksReversed();
    LaterBlocksReversed();
    ReversedConcat(a, b);
    ReversedConcat(a + b, c);
    ReversedConcat(a + b + c, d);
    ReversedConcat(a + b + c + d, e);
    ReversedConcat(a + b + c + d + e, f);
  }

  lemma EarlierBlocksReversed()
    ensures Reversed(ProductTracking()) == [Plain(PRODUCTS, "tracking_type", false)]
    ensures Reversed(LedgerTracking())
         == [Plain(STOCK_LEDGERS, "serial_numbers", true),
             ColumnStep(STOCK_LEDGERS, "batch_id", true, Link("fk_stock_ledgers_batch_id", BATCHES), true)]
    ensures Reversed(ReservationTracking())
         == [Plain(STOCK_RESERVATIONS, "reference_id", true), Plain(STOCK_RESERVATIONS, "reference_type", true),
             Plain(STOCK_RESERVATIONS, "notes", true), Plain(STOCK_RESERVATIONS, "consumed_at", true),
             Plain(STOCK_RESERVATIONS, "released_at", true)]
  {
    hide StepsOk, BlockOk, Plain;
  }

  lemma LaterBlocksReversed()
    ensures Reversed(ReceiptItemTracking())
         == [Plain(GOODS_RECEIPT_ITEMS, "serial_numbers", true),
             Plain(GOODS_RECEIPT_ITEMS, "manufacturing_date", true), Plain(GOODS_RECEIPT_ITEMS, "expiry_date", true),
             Plain(GOODS_RECEIPT_ITEMS, "batch_number", true),
             Linking(GOODS_RECEIPT_ITEMS, "batch_id", "fk_goods_receipt_items_batch_id", BATCHES)]
    ensures Reversed(IssueItemTracking())
         == [Linking(GOODS_ISSUE_ITEMS, "reservation_id", "fk_goods_issue_items_reservation_id", STOCK_RESERVATIONS),
             Plain(GOODS_ISSUE_ITEMS, "serial_numbers", true),
             Linking(GOODS_ISSUE_ITEMS, "batch_id", "fk_goods_issue_items_batch_id", BATCHES)]
    ensures Reversed(TransferItemTracking())
         == [Plain(STOCK_TRANSFER_ITEMS, "serial_numbers", true),
             Linking(STOCK_TRANSFER_ITEMS, "batch_id", "fk_stock_transfer_items_batch_id", BATCHES)]
  {
    hide StepsOk, BlockOk, Plain, Linking;
  }

  lemma ReversedConcat(a: seq<ColumnStep>, b: seq<ColumnStep>)
    ensures Reversed(a + b) == Reversed(b) + Reversed(a)
  {
  }

  lemma TrackingIsAddAll(s: Schema, inspected: bool, faults: Faults)
    ensures TrackingUpgrade(s, inspected, faults) == AddAll(s, TrackingSteps(), Guard(inspected, true), faults)
  {
  }

  method UpgradeTracking(db: Connection, inspected: bool, faults: Faults) returns (ok: bool)
    modifies db
    ensures (if ok then Ok(db.schema) else Refused(db.schema)) == TrackingUpgrade(old(db.schema), inspected, faults)
    ensures ok && if inspected then Enlarged(old(db.schema), db.schema, TrackingSteps(), faults)
                  else db.schema == old(db.schema)
    ensures Sound(old(db.schema)) ==> Sound(db.schema)
  {
    hide TrackingSteps, Enlarged, StepsOk, TrackingUpgrade;
    TrackingIsAddAll(db.schema, inspected, faults);
    if inspected {
      TrackingUpgradeColumns(db.schema, faults);
    }
    ok := AddColumns(db, TrackingSteps(), Guard(inspected, true), faults);
  }

  method DowngradeTracking(db: Connection, inspected: bool, faults: Faults) returns (ok: bool)
    modifies db
    ensures (if ok then Ok(db.schema) else Refused(db.schema)) == TrackingDowngrade(old(db.schema), inspected, faults)
    ensures ok && if inspected then Columns(db.schema) == ColumnsMinus(old(db.schema), Tracked())
                  else db.schema == old(db.schema)
    ensures Sound(old(db.schema)) ==> Sound(db.schema)
  {
    hide TrackingSteps, Managed, Columns, ColumnsMinus;
    ReversedOk(TrackingSteps());
    SameManaged(TrackingSteps(), Reversed(TrackingSteps()));
    ok := DropColumns(db, Reversed(TrackingSteps()), inspected, faults);
  }

  function Tracked(): set<Column> {
    Managed(TrackingSteps())
  }

  /** The upgrade gets through from every schema, whichever of its tables are missing and whatever fails
      in its `try` blocks, and every table it finds ends up with its managed columns. */
  lemma TrackingUpgradeColumns(s: Schema, faults: Faults)
    ensures TrackingUpgrade(s, true, faults).Ok?
    ensures Columns(TrackingUpgrade(s, true, faults).schema) == ColumnsPlus(s, Tracked())
  {
    hide TrackingSteps, Columns, Managed;
    AddAllExactly(s, TrackingSteps(), Guard(true, true), faults);
  }

  /** The schema it ends in, exactly. */
  lemma TrackingUpgradeExactly(s: Schema, d: Schema, faults: Faults)
    ensures TrackingUpgrade(s, true, faults) == Ok(d) <==> Enlarged(s, d, TrackingSteps(), faults)
  {
    hide TrackingSteps, Enlarged, Columns, Managed;
    TrackingUpgradeColumns(s, faults);
    AddAllIsEnlarged(s, d, TrackingSteps(), Guard(true, true), faults);
  }

  /** The upgrade is idempotent on the whole schema, even if the second run fails differently or cannot
      look at the database. */
  lemma TrackingUpgradeTwice(s: Schema, first: Faults, inspected: bool, second: Faults)
    ensures TrackingUpgrade(TrackingUpgrade(s, true, first).schema, inspected, second)
         == TrackingUpgrade(s, true, first)
  {
    hide TrackingSteps, Columns, Managed;
    var steps := TrackingSteps();
    TrackingUpgradeColumns(s, first);
    var u := TrackingUpgrade(s, true, first).schema;
    forall i | 0 <= i < |steps|
      ensures Present(u, steps[i].table, steps[i].column) || steps[i].table !in u.tables
    {
      InManaged(steps, i);
      PlusPresent(s, u, Managed(steps), steps[i].table, steps[i].column);
    }
    AddAllSettled(u, steps, Guard(inspected, true), second);
  }

  lemma MinusAfterPlus(s: Schema, u: Schema, d: Schema, managed: set<Column>)
    requires Columns(u) == ColumnsPlus(s, managed) && Columns(d) == ColumnsMinus(u, managed)
    ensures Columns(d) == ColumnsMinus(s, managed)
  {
    assert Columns(u).Keys == u.tables.Keys && ColumnsPlus(s, managed).Keys == s.tables.Keys;
    assert ColumnsMinus(u, managed).Keys == ColumnsMinus(s, managed).Keys;
    forall t | t in s.tables ensures u.tables[t].columns - Of(managed, t) == s.tables[t].columns - Of(managed, t) {
      assert Columns(u)[t] == ColumnsPlus(s, managed)[t];
    }
  }

  /** Downgrade after upgrade: the start without the managed columns, hence the same columns exactly when
      none of them was there. */
  lemma TrackingRoundTripColumns(s: Schema, going: Faults, coming: Faults)
    ensures var back := TrackingDowngrade(TrackingUpgrade(s, true, going).schema, true, coming);
            && back.Ok?
            && Columns(back.schema) == ColumnsMinus(s, Tracked())
            && (Columns(back.schema) == Columns(s) <==> NonePresent(s, Tracked()))
  {
    hide TrackingSteps, Columns, Managed, ColumnsMinus, ColumnsPlus, RemoveAll;
    var up := TrackingSteps();
    var down := Reversed(up);
    ReversedOk(up);
    SameManaged(up, down);
    TrackingUpgradeColumns(s, going);
    var u := TrackingUpgrade(s, true, going).schema;
    RemoveAllExactly(u, down, coming);
    MinusAfterPlus(s, u, RemoveAll(u, down, true, coming).schema, Tracked());
    NothingRemoved(s, Tracked());
  }

  ghost predicate TrackingStrips(s: Schema, going: Faults, coming: Faults) {
    TrackingDowngrade(TrackingUpgrade(s, true, going).schema, true, coming) == Ok(Strip(s, Tracked()))
  }

  /** The same for the whole schema, with foreign keys, indexes and nullability: the pair always leaves the
      start without the managed columns exactly when every name that the downgrade drops, and reaches,
      belongs to something that goes with a managed column anyway. */
  lemma TrackingRoundTrip(s: Schema)
    ensures (forall going, coming :: TrackingStrips(s, going, coming))
            <==> AllHarmless(s, Reversed(TrackingSteps()))
  {
    hide TrackingSteps, Columns, Managed, Strip, AllHarmless, StepsOk, AddAll, RemoveAll;
    var up, down, guard := TrackingSteps(), Reversed(TrackingSteps()), Guard(true, true);
    ReversedOk(up);
    RoundTripExactly(s, up, down, guard);
    forall going, coming
      ensures LeavesStripped(s, up, down, guard, going, coming) <==> TrackingStrips(s, going, coming)
    {
      TrackingUpgradeColumns(s, going);
    }
    if AllHarmless(s, down) {
      forall going, coming ensures TrackingStrips(s, going, coming) {
        assert LeavesStripped(s, up, down, guard, going, coming);
      }
    }
    if forall going, coming :: TrackingStrips(s, going, coming) {
      forall going, coming ensures LeavesStripped(s, up, down, guard, going, coming) {
        assert TrackingStrips(s, going, coming);
      }
    }
  }

  /** Exactly when the pair always restores a sound schema it starts from. */
  lemma TrackingRestoresExactly(s: Schema)
    requires Sound(s) && Tidy(s)
    ensures (forall going, coming ::
               Restores(s, TrackingSteps(), Reversed(TrackingSteps()), Guard(true, true), going, coming))
            <==> NonePresent(s, Tracked()) && forall step :: step in TrackingSteps() ==> NameFree(s, step)
  {
    hide TrackingSteps, Managed, NameFree, NonePresent, Restores, Sound, Tidy;
    ReversedOk(TrackingSteps());
    IdentityExactly(s, TrackingSteps(), Reversed(TrackingSteps()), Guard(true, true));
  }

  /** An index of the right name on another column, in a schema without any managed column, is lost. */
  lemma TrackingCanLoseAnIndex()
    ensures var x := Ix(STOCK_LEDGERS, "batch_id");
            var s := Schema(map[STOCK_LEDGERS := Table({KEY}, {}, {})], map[x := Index(STOCK_LEDGERS, {KEY})]);
            && Sound(s) && NonePresent(s, Tracked())
            && exists going, coming ::
                 !Restores(s, TrackingSteps(), Reversed(TrackingSteps()), Guard(true, true), going, coming)
  {
    var x := Ix(STOCK_LEDGERS, "batch_id");
    var s := Schema(map[STOCK_LEDGERS := Table({KEY}, {}, {})], map[x := Index(STOCK_LEDGERS, {KEY})]);
    BatchTracked();
    hide TrackingSteps, Managed, Restores;
    forall m | m in Tracked() ensures !Present(s, m.0, m.1) {
      NoKeyManaged(TrackingSteps(), m);
    }
    TrackingRestoresExactly(s);
  }

  lemma NoKeyManaged(steps: seq<ColumnStep>, m: Column)
    requires StepsOk(steps) && m in Managed(steps)
    ensures m.1 != KEY
  {
  }

  lemma BatchTracked()
    ensures ColumnStep(STOCK_LEDGERS, "batch_id", true, Link("fk_stock_ledgers_batch_id", BATCHES), true)
            in TrackingSteps()
  {
    hide ProductTracking, ReservationTracking, ReceiptItemTracking, IssueItemTracking, TransferItemTracking;
    var step := LedgerTracking()[0];
    assert TrackingSteps()[|ProductTracking()|] == step;
  }

  /** A ledger that is found without `batch_id` gets the column, optional, with its constraint and its index,
      when the batches have their key, both names are free and nothing fails. */
  lemma BatchIsLinked(s: Schema, faults: Faults)
    requires STOCK_LEDGERS in s.tables && !Present(s, STOCK_LEDGERS, "batch_id") && HasKey(s, BATCHES)
    requires forall fk :: fk in s.tables[STOCK_LEDGERS].fks ==> fk.name != "fk_stock_ledgers_batch_id"
    requires Ix(STOCK_LEDGERS, "batch_id") !in s.indexes && faults(STOCK_LEDGERS, "batch_id") >= 2
    ensures var u := TrackingUpgrade(s, true, faults).schema;
            && STOCK_LEDGERS in u.tables
            && "batch_id" in u.tables[STOCK_LEDGERS].columns && "batch_id" in u.tables[STOCK_LEDGERS].nullable
            && ForeignKey("fk_stock_ledgers_batch_id", "batch_id", BATCHES) in u.tables[STOCK_LEDGERS].fks
            && Ix(STOCK_LEDGERS, "batch_id") in u.indexes
            && u.indexes[Ix(STOCK_LEDGERS, "batch_id")] == Index(STOCK_LEDGERS, {"batch_id"})
  {
    hide TrackingSteps, TrackingUpgrade;
    var u, steps := TrackingUpgrade(s, true, faults).schema, TrackingSteps();
    var step := ColumnStep(STOCK_LEDGERS, "batch_id", true, Link("fk_stock_ledgers_batch_id", BATCHES), true);
    BatchTracked();
    TrackingUpgradeColumns(s, faults);
    TrackingUpgradeExactly(s, u, faults);
    assert step in steps && IndexMade(s, step, faults(step.table, step.column));
    assert TableEnlarged(s, u, steps, faults, STOCK_LEDGERS);
    assert AddsColumn(steps, s, STOCK_LEDGERS, "batch_id");
    assert AddsLink(steps, s, faults, STOCK_LEDGERS, ForeignKey(step.link.name, step.column, step.link.target));
    assert AddsIndex(steps, s, faults, Ix(STOCK_LEDGERS, "batch_id"), u.indexes[Ix(STOCK_LEDGERS, "batch_id")]);
  }

  // ---------------------------------------------------------------- v0.6.1: stock ledger enhancements

  function LedgerEnhancements(): (steps: seq<ColumnStep>)
    ensures BlockOk(STOCK_LEDGERS, steps)
  {
    [Indexed(STOCK_LEDGERS, "movement_type", false), Plain(STOCK_LEDGERS, "quantity_before", false),
     Plain(STOCK_LEDGERS, "quantity_after", false), Indexed(STOCK_LEDGERS, "idempotency_key", true),
     Plain(STOCK_LEDGERS, "reason", true), Plain(STOCK_LEDGERS, "notes", true),
     Plain(STOCK_LEDGERS, "metadata_json", true)]
  }

  /** The same columns in the order in which the downgrade drops them. */
  function LedgerRemovals(): (steps: seq<ColumnStep>)
    ensures BlockOk(STOCK_LEDGERS, steps)
  {
    [Indexed(STOCK_LEDGERS, "idempotency_key", true), Indexed(STOCK_LEDGERS, "movement_type", false),
     Plain(STOCK_LEDGERS, "quantity_before", false), Plain(STOCK_LEDGERS, "quantity_after", false),
     Plain(STOCK_LEDGERS, "reason", true), Plain(STOCK_LEDGERS, "notes", true),
     Plain(STOCK_LEDGERS, "metadata_json", true)]
  }

  lemma LedgerRemovalsMatch()
    ensures forall step :: step in LedgerEnhancements() <==> step in LedgerRemovals()
    ensures |LedgerEnhancements()| > 0 && StepsOk(LedgerEnhancements()) && StepsOk(LedgerRemovals())
    ensures forall step :: step in LedgerEnhancements() ==> step.table == STOCK_LEDGERS
  {
    hide StepsOk;
  }

  const TRANSACTION_TYPE := "transaction_type_id"

  /** The attempt to make the transaction type optional. */
  function Loosened(s: Schema, faults: Faults): Schema {
    Attempt(s, [AlterNullable(STOCK_LEDGERS, TRANSACTION_TYPE)], faults(STOCK_LEDGERS, TRANSACTION_TYPE))
  }

  /** The start with what the enhancements add, and then the transaction type made optional, if it is there
      and nothing fails. */
  ghost predicate LedgerEnlarged(s: Schema, u: Schema, faults: Faults) {
    exists m: Schema :: Enlarged(s, m, LedgerEnhancements(), faults)
      && u == if faults(STOCK_LEDGERS, "transaction_type_id") > 0 && Present(s, STOCK_LEDGERS, "transaction_type_id")
                 && STOCK_LEDGERS in m.tables then
                var was := m.tables[STOCK_LEDGERS];
                WithTable(m, STOCK_LEDGERS, was.(nullable := was.nullable + {"transaction_type_id"}))
              else m
  }

  function LedgerUpgrade(s: Schema, inspected: bool, faults: Faults): Outcome {
    match AddAll(s, LedgerEnhancements(), Guard(inspected, false), faults)
    case Refused(at) => Refused(at)
    case Ok(at) => Ok(Loosened(at, faults))
  }

  /** The downgrade does not catch a failed inspection. */
  function LedgerDowngrade(s: Schema, faults: Faults): Outcome {
    RemoveAll(s, LedgerRemovals(), true, faults)
  }

  method UpgradeLedger(db: Connection, inspected: bool, faults: Faults) returns (ok: bool)
    modifies db
    ensures (if ok then Ok(db.schema) else Refused(db.schema)) == LedgerUpgrade(old(db.schema), inspected, faults)
    ensures ok ==> LedgerEnlarged(old(db.schema), db.schema, faults)
    ensures Sound(old(db.schema)) ==> Sound(db.schema)
  {
    hide LedgerEnhancements, Sound, Enlarged, LedgerEnlarged, Present, StepsOk;
    LedgerUpgradeMakes(db.schema, inspected, faults);
    ok := AddColumns(db, LedgerEnhancements(), Guard(inspected, false), faults);
    if ok {
      TryBlock(db, [AlterNullable(STOCK_LEDGERS, TRANSACTION_TYPE)], faults(STOCK_LEDGERS, TRANSACTION_TYPE));
    }
  }

  method DowngradeLedger(db: Connection, faults: Faults) returns (ok: bool)
    modifies db
    ensures (if ok then Ok(db.schema) else Refused(db.schema)) == LedgerDowngrade(old(db.schema), faults)
    ensures ok && Columns(db.schema) == ColumnsMinus(old(db.schema), LedgerColumns())
    ensures Sound(old(db.schema)) ==> Sound(db.schema)
  {
    hide LedgerEnhancements, LedgerRemovals, Sound, Managed, Columns, ColumnsMinus, StepsOk;
    LedgerRemovalsMatch();
    SameManaged(LedgerEnhancements(), LedgerRemovals());
    ok := DropColumns(db, LedgerRemovals(), true, faults);
  }

  function LedgerColumns(): set<Column> {
    Managed(LedgerEnhancements())
  }

  lemma LoosenedIs(s: Schema, faults: Faults)
    ensures Loosened(s, faults)
         == if faults(STOCK_LEDGERS, TRANSACTION_TYPE) > 0 && Present(s, STOCK_LEDGERS, TRANSACTION_TYPE) then
              var was := s.tables[STOCK_LEDGERS];
              WithTable(s, STOCK_LEDGERS, was.(nullable := was.nullable + {TRANSACTION_TYPE}))
            else s
    ensures Columns(Loosened(s, faults)) == Columns(s)
  {
    var op := AlterNullable(STOCK_LEDGERS, TRANSACTION_TYPE);
    assert Cut([op], 0) == [] && forall n :: n > 0 ==> Cut([op], n) == [op];
    ExecOne(s, op);
    ExecNothing(s);
  }

  /** The upgrade needs the table; and, when it cannot look at the database, it needs every column to be
      missing.  Whatever else fails, all the columns are there in the end. */
  lemma LedgerUpgradeExactly(s: Schema, inspected: bool, faults: Faults)
    ensures LedgerUpgrade(s, inspected, faults).Ok?
            <==> STOCK_LEDGERS in s.tables && (inspected || NonePresent(s, LedgerColumns()))
    ensures LedgerUpgrade(s, inspected, faults).Ok? ==>
              Columns(LedgerUpgrade(s, inspected, faults).schema) == ColumnsPlus(s, LedgerColumns())
  {
    hide LedgerEnhancements, Columns, Loosened, AddAll, StepsOk;
    LedgerRemovalsMatch();
    var steps, guard := LedgerEnhancements(), Guard(inspected, false);
    AddAllExactly(s, steps, guard, faults);
    LoosenedIs(AddAll(s, steps, guard, faults).schema, faults);
    assert steps[0] in steps;
    assert Runs(s, steps[0], guard) ==> STOCK_LEDGERS in s.tables;
    forall i | 0 <= i < |steps|
      ensures Runs(s, steps[i], guard)
              <==> STOCK_LEDGERS in s.tables && (inspected || !Present(s, steps[i].table, steps[i].column))
      ensures (steps[i].table, steps[i].column) in LedgerColumns()
    {
      assert steps[i] in steps;
    }
    if forall i :: 0 <= i < |steps| ==> !Present(s, steps[i].table, steps[i].column) {
      assert NonePresent(s, LedgerColumns());
    }
    if NonePresent(s, LedgerColumns()) {
      forall i | 0 <= i < |steps| ensures !Present(s, steps[i].table, steps[i].column) {
        assert !Present(s, (steps[i].table, steps[i].column).0, (steps[i].table, steps[i].column).1);
      }
    }
  }

  /** The schema it ends in, exactly: every added column accepts NULL when its step says so, and the
      transaction type is the one older column that may change. */
  lemma LedgerUpgradeMakes(s: Schema, inspected: bool, faults: Faults)
    ensures LedgerUpgrade(s, inspected, faults).Ok? ==>
              LedgerEnlarged(s, LedgerUpgrade(s, inspected, faults).schema, faults)
  {
    hide LedgerEnhancements, Enlarged, AddAll, Columns, ColumnsPlus, Loosened, StepsOk, Managed;
    LedgerRemovalsMatch();
    var steps, guard := LedgerEnhancements(), Guard(inspected, false);
    if AddAll(s, steps, guard, faults).Ok? {
      var m := AddAll(s, steps, guard, faults).schema;
      AddAllMakes(s, steps, guard, faults);
      AddAllExactly(s, steps, guard, faults);
      LoosenedIs(m, faults);
      PlusPresent(s, m, Managed(steps), STOCK_LEDGERS, TRANSACTION_TYPE);
      TypeNotManaged();
    }
  }

  /** The downgrade always gets through and takes all the added columns away; upgrading again gives the
      columns of the first upgrade. */
  lemma LedgerReUpgradeColumns(s: Schema, going: Faults, coming: Faults, again: Faults)
    requires STOCK_LEDGERS in s.tables
    ensures var up := LedgerUpgrade(s, true, going);
            && up.Ok?
            && var down := LedgerDowngrade(up.schema, coming);
            && down.Ok? && Columns(down.schema) == ColumnsMinus(s, LedgerColumns())
            && LedgerUpgrade(down.schema, true, again).Ok?
            && Columns(LedgerUpgrade(down.schema, true, again).schema) == Columns(up.schema)
  {
    hide LedgerUpgrade, LedgerEnhancements, LedgerRemovals, Managed, Columns, ColumnsPlus, ColumnsMinus, StepsOk,
         RemoveAll;
    LedgerRemovalsMatch();
    SameManaged(LedgerEnhancements(), LedgerRemovals());
    LedgerUpgradeExactly(s, true, going);
    var u := LedgerUpgrade(s, true, going).schema;
    RemoveAllExactly(u, LedgerRemovals(), coming);
    var d := LedgerDowngrade(u, coming).schema;
    MinusAfterPlus(s, u, d, LedgerColumns());
    MinusPresent(s, d, LedgerColumns(), STOCK_LEDGERS, KEY);
    LedgerUpgradeExactly(d, true, again);
    PlusAfterMinus(s, d, LedgerColumns());
  }

  lemma PlusAfterMinus(s: Schema, d: Schema, managed: set<Column>)
    requires Columns(d) == ColumnsMinus(s, managed)
    ensures ColumnsPlus(d, managed) == ColumnsPlus(s, managed)
  {
    assert Columns(d).Keys == d.tables.Keys && ColumnsMinus(s, managed).Keys == s.tables.Keys;
    forall t | t in s.tables ensures d.tables[t].columns + Of(managed, t) == s.tables[t].columns + Of(managed, t) {
      assert Columns(d)[t] == ColumnsMinus(s, managed)[t];
    }
  }

  ghost predicate LedgerStrips(s: Schema, going: Faults, coming: Faults) {
    LedgerDowngrade(LedgerUpgrade(s, true, going).schema, coming)
    == Ok(Loosened(Strip(s, LedgerColumns()), going))
  }

  /** In the whole schema the pair always leaves the start without the managed columns, but with the
      transaction type made optional, which the downgrade does not take back, exactly when no index name
      that the downgrade drops is in use for an index that does not go with a managed column. */
  lemma LedgerRoundTrip(s: Schema)
    requires STOCK_LEDGERS in s.tables
    ensures (forall going, coming :: LedgerStrips(s, going, coming)) <==> AllHarmless(s, LedgerRemovals())
  {
    hide LedgerRemovals, AllHarmless, LedgerStrips;
    if AllHarmless(s, LedgerRemovals()) {
      forall going, coming ensures LedgerStrips(s, going, coming) {
        LedgerUpgraded(s, going);
        HarmlessStrips(s, going, coming);
      }
    }
    if forall going, coming :: LedgerStrips(s, going, coming) {
      var calm: Faults := (t, c) => 2;
      assert LedgerStrips(s, calm, calm);
      LedgerUpgraded(s, calm);
      StripsIsHarmless(s, calm);
    }
  }

  /** What the upgrade leaves, as far as the downgrade is concerned. */
  lemma LedgerUpgraded(s: Schema, going: Faults)
    requires STOCK_LEDGERS in s.tables
    ensures var u := LedgerUpgrade(s, true, going).schema;
            && LedgerUpgrade(s, true, going) == Ok(u)
            && StepsOk(LedgerRemovals()) && InPlace(u, LedgerRemovals())
            && (AllHarmless(u, LedgerRemovals()) <==> AllHarmless(s, LedgerRemovals()))
            && Strip(u, Managed(LedgerRemovals())) == Loosened(Strip(s, LedgerColumns()), going)
            && Managed(LedgerRemovals()) == LedgerColumns()
            && Columns(u) == ColumnsPlus(s, LedgerColumns())
  {
    hide LedgerEnhancements, LedgerRemovals, Managed, Columns, AllHarmless, Strip, AddAll, Loosened, StepsOk;
    LedgerRemovalsMatch();
    var up, down, guard := LedgerEnhancements(), LedgerRemovals(), Guard(true, false);
    LedgerUpgradeExactly(s, true, going);
    var m := AddAll(s, up, guard, going).schema;
    AfterAdd(s, up, down, guard, going);
    LoosenedIs(m, going);
    SameColumns(m, Loosened(m, going), {});
    LoosenedHarmless(m, going, down);
    TypeNotManaged();
    LoosenedStrip(m, going, LedgerColumns());
  }

  lemma HarmlessStrips(s: Schema, going: Faults, coming: Faults)
    requires var u, down := LedgerUpgrade(s, true, going).schema, LedgerRemovals();
             && StepsOk(down) && InPlace(u, down) && AllHarmless(u, down)
             && Strip(u, Managed(down)) == Loosened(Strip(s, LedgerColumns()), going)
    ensures LedgerStrips(s, going, coming)
  {
    hide LedgerUpgrade, LedgerRemovals, Managed, Strip, AllHarmless, StepsOk, Loosened, InPlace, RemoveAll;
    RemoveAllStrips(LedgerUpgrade(s, true, going).schema, LedgerRemovals(), coming);
  }

  lemma StripsIsHarmless(s: Schema, calm: Faults)
    requires var u, down := LedgerUpgrade(s, true, calm).schema, LedgerRemovals();
             && StepsOk(down) && InPlace(u, down)
             && Strip(u, Managed(down)) == Loosened(Strip(s, LedgerColumns()), calm)
    requires LedgerStrips(s, calm, calm) && forall t, c :: calm(t, c) > 1
    ensures AllHarmless(LedgerUpgrade(s, true, calm).schema, LedgerRemovals())
  {
    hide LedgerUpgrade, LedgerRemovals, Managed, Strip, AllHarmless, StepsOk, Loosened, InPlace, RemoveAll;
    StrippedIsHarmless(LedgerUpgrade(s, true, calm).schema, LedgerRemovals(), calm);
  }

  lemma LoosenedHarmless(s: Schema, faults: Faults, steps: seq<ColumnStep>)
    ensures AllHarmless(Loosened(s, faults), steps) <==> AllHarmless(s, steps)
  {
    hide Loosened, Managed;
    LoosenedIs(s, faults);
    var u := Loosened(s, faults);
    forall j | 0 <= j < |steps| ensures Harmless(u, steps, j) <==> Harmless(s, steps, j) {
      forall index ensures Doomed(u, index, Managed(steps)) <==> Doomed(s, index, Managed(steps)) {}
    }
  }

  lemma TypeNotManaged()
    ensures (STOCK_LEDGERS, TRANSACTION_TYPE) !in LedgerColumns()
  {
  }

  lemma LoosenedStrip(s: Schema, faults: Faults, managed: set<Column>)
    requires (STOCK_LEDGERS, TRANSACTION_TYPE) !in managed
    ensures Strip(Loosened(s, faults), managed) == Loosened(Strip(s, managed), faults)
  {
    hide Loosened;
    LoosenedIs(s, faults);
    LoosenedIs(Strip(s, managed), faults);
    var u := Loosened(s, faults);
    var a, b := Strip(u, managed), Loosened(Strip(s, managed), faults);
    assert Present(s, STOCK_LEDGERS, TRANSACTION_TYPE) <==> Present(Strip(s, managed), STOCK_LEDGERS, TRANSACTION_TYPE);
    forall t | t in s.tables ensures a.tables[t] == b.tables[t] {
      if t == STOCK_LEDGERS {
        assert a.tables[t].nullable == b.tables[t].nullable;
      }
    }
    assert a.tables == b.tables;
    assert a.indexes == Strip(s, managed).indexes;
  }

  ghost predicate LedgerRestores(s: Schema, going: Faults, coming: Faults) {
    && LedgerUpgrade(s, true, going).Ok?
    && LedgerDowngrade(LedgerUpgrade(s, true, going).schema, coming) == Ok(s)
  }

  /** So the pair restores a sound schema, whatever fails in between, exactly when none of the columns and
      no dropped name was there and the transaction type was already optional or missing. */
  lemma LedgerRestoresExactly(s: Schema)
    requires Sound(s) && Tidy(s) && STOCK_LEDGERS in s.tables
    ensures (forall going, coming :: LedgerRestores(s, going, coming)) <==> LedgerFresh(s) && TypeOptional(s)
  {
    hide LedgerRestores, LedgerFresh, Sound, Tidy, Loosened;
    if LedgerFresh(s) {
      forall going, coming ensures LedgerRestores(s, going, coming) <==> Loosened(s, going) == s {
        FreshRoundTrip(s, going, coming);
      }
      if TypeOptional(s) {
        forall going ensures Loosened(s, going) == s {
          LoosenedIdle(s, going);
        }
      }
    }
    if forall going, coming :: LedgerRestores(s, going, coming) {
      var calm: Faults := (t, c) => 2;
      assert LedgerRestores(s, calm, calm);
      RestoredIsFresh(s, calm);
      FreshRoundTrip(s, calm, calm);
      LoosenedIs(s, calm);
    }
  }

  lemma LoosenedIdle(s: Schema, faults: Faults)
    requires TypeOptional(s)
    ensures Loosened(s, faults) == s
  {
    hide Loosened;
    LoosenedIs(s, faults);
    if Present(s, STOCK_LEDGERS, TRANSACTION_TYPE) {
      var was := s.tables[STOCK_LEDGERS];
      assert was.nullable + {TRANSACTION_TYPE} == was.nullable;
      assert s.tables[STOCK_LEDGERS := was] == s.tables;
    }
  }

  predicate TypeOptional(s: Schema) {
    Present(s, STOCK_LEDGERS, TRANSACTION_TYPE) ==> TRANSACTION_TYPE in s.tables[STOCK_LEDGERS].nullable
  }

  ghost predicate LedgerFresh(s: Schema) {
    NonePresent(s, LedgerColumns()) && forall step :: step in LedgerEnhancements() ==> NameFree(s, step)
  }

  lemma FreshRoundTrip(s: Schema, going: Faults, coming: Faults)
    requires Sound(s) && Tidy(s) && STOCK_LEDGERS in s.tables && LedgerFresh(s)
    ensures LedgerRestores(s, going, coming) <==> Loosened(s, going) == s
    ensures LedgerDowngrade(LedgerUpgrade(s, true, going).schema, coming) == Ok(Loosened(s, going))
  {
    hide LedgerUpgrade, LedgerDowngrade, LedgerEnhancements, LedgerRemovals, Managed, NameFree, NonePresent, Sound,
         Tidy, Strip, Loosened, StepsOk, AllHarmless;
    LedgerRemovalsMatch();
    NoneStripped(s, LedgerColumns());
    FreeIsHarmless(s, LedgerRemovals());
    LedgerRoundTrip(s);
    assert LedgerStrips(s, going, coming);
    LedgerUpgradeExactly(s, true, going);
  }

  lemma RestoredIsFresh(s: Schema, calm: Faults)
    requires STOCK_LEDGERS in s.tables && LedgerRestores(s, calm, calm) && forall t, c :: calm(t, c) > 1
    ensures LedgerFresh(s)
  {
    hide LedgerEnhancements, LedgerRemovals, Managed, NameFree, NonePresent, StepsOk, RemoveAll, Columns, LedgerUpgrade,
         InPlace, AllHarmless, Strip, Loosened;
    LedgerRemovalsMatch();
    LedgerUpgraded(s, calm);
    RestoredIsFree(s, LedgerUpgrade(s, true, calm).schema, LedgerRemovals(), calm);
  }

  /** A ledger that requires the transaction type, as the stock engine creates it, without the rest. */
  function BareLedger(nullable: set<string>): Schema {
    Schema(map[STOCK_LEDGERS := Table({KEY, TRANSACTION_TYPE}, nullable, {})], map[])
  }

  lemma BareLedgerFresh()
    ensures Sound(BareLedger({})) && Tidy(BareLedger({})) && LedgerFresh(BareLedger({}))
  {
    hide LedgerEnhancements, StepsOk;
    LedgerRemovalsMatch();
    TypeNotManaged();
    forall m | m in LedgerColumns() ensures !Present(BareLedger({}), m.0, m.1) {
      NoKeyManaged(LedgerEnhancements(), m);
      assert m == (m.0, m.1);
    }
  }

  /** It comes back with the type optional, however the downgrade goes. */
  lemma LedgerComesBackLoosened(going: Faults, coming: Faults)
    requires going(STOCK_LEDGERS, TRANSACTION_TYPE) > 0
    ensures LedgerDowngrade(LedgerUpgrade(BareLedger({}), true, going).schema, coming)
         == Ok(BareLedger({TRANSACTION_TYPE}))
    ensures !LedgerRestores(BareLedger({}), going, coming)
  {
    hide LedgerUpgrade, LedgerDowngrade, LedgerFresh, Sound, Tidy, Loosened;
    var s := BareLedger({});
    BareLedgerFresh();
    FreshRoundTrip(s, going, coming);
    LoosenedIs(s, going);
    assert Loosened(s, going).tables[STOCK_LEDGERS] == BareLedger({TRANSACTION_TYPE}).tables[STOCK_LEDGERS];
    assert Loosened(s, going).tables == BareLedger({TRANSACTION_TYPE}).tables;
  }
}
