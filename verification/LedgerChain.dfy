/** The ledger revision on top of the stock engine that creates the ledger, column by column. */
module LedgerChain {
  import opened SchemaModel
  import opened CreationScripts
  import opened BuiltSchemas
  import opened WarehouseTables
  import opened WarehouseMigrations
  import opened GuardedColumns
  import opened ColumnAdditions
  import opened ColumnRoundTrips
  import opened GuardedMigrations

  const ADDED: set<string> :=
    {"movement_type", "quantity_before", "quantity_after", "idempotency_key", "reason", "notes", "metadata_json"}

  lemma AddedSteps(step: ColumnStep)
    ensures step in LedgerEnhancements() ==> step.table == STOCK_LEDGERS && step.column in ADDED
    ensures step in LedgerEnhancements() ==>
              (step.nullable <==> step.column in ADDED_OPTIONAL)
    ensures step in LedgerEnhancements() ==> !step.link.Link?
    ensures step in LedgerEnhancements() ==>
              (step.indexed <==> step.column in {"movement_type", "idempotency_key"})
  {
    hide BlockOk;
  }

  lemma AddedColumn(c: string)
    requires c in ADDED
    ensures exists step :: step in LedgerEnhancements() && step.column == c
  {
    hide BlockOk;
    var steps := LedgerEnhancements();
    assert steps[0] in steps && steps[1] in steps && steps[2] in steps && steps[3] in steps;
    assert steps[4] in steps && steps[5] in steps && steps[6] in steps;
  }

  const ADDED_OPTIONAL: set<string> := {"idempotency_key", "reason", "notes", "metadata_json"}

  /** On a ledger without any of the seven columns, the upgrade requires three of them and leaves the other
      four optional. */
  lemma LedgerNullability(s: Schema, u: Schema, faults: Faults)
    requires STOCK_LEDGERS in s.tables && s.tables[STOCK_LEDGERS].columns !! ADDED
    requires LedgerEnlarged(s, u, faults)
    ensures STOCK_LEDGERS in u.tables
    ensures var was, now := s.tables[STOCK_LEDGERS], u.tables[STOCK_LEDGERS];
            && now.columns == was.columns + ADDED && now.fks == was.fks
            && now.nullable
               == (was.nullable - ADDED) + ADDED_OPTIONAL
                  + if faults(STOCK_LEDGERS, "transaction_type_id") > 0 && "transaction_type_id" in was.columns
                    then {"transaction_type_id"} else {}
  {
    hide LedgerEnhancements, Enlarged;
    var steps := LedgerEnhancements();
    var m :| Enlarged(s, m, steps, faults)
      && u == if faults(STOCK_LEDGERS, "transaction_type_id") > 0 && Present(s, STOCK_LEDGERS, "transaction_type_id")
                 && STOCK_LEDGERS in m.tables then
                var was := m.tables[STOCK_LEDGERS];
                WithTable(m, STOCK_LEDGERS, was.(nullable := was.nullable + {"transaction_type_id"}))
              else m;
    SevenAdded(s, m, faults);
  }

  lemma SevenAdded(s: Schema, m: Schema, faults: Faults)
    requires STOCK_LEDGERS in s.tables && s.tables[STOCK_LEDGERS].columns !! ADDED
    requires Enlarged(s, m, LedgerEnhancements(), faults)
    ensures STOCK_LEDGERS in m.tables
    ensures var was, now := s.tables[STOCK_LEDGERS], m.tables[STOCK_LEDGERS];
            && now.columns == was.columns + ADDED && now.fks == was.fks
            && now.nullable == (was.nullable - ADDED) + ADDED_OPTIONAL
  {
    var was, now := s.tables[STOCK_LEDGERS], m.tables[STOCK_LEDGERS];
    hide LedgerEnhancements, Enlarged;
    forall c
      ensures c in now.columns <==> c in was.columns || c in ADDED
      ensures c in now.nullable <==> if c in ADDED then c in ADDED_OPTIONAL else c in was.nullable
    {
      OneAdded(s, m, faults, c);
    }
    OptionalAdded();
    Replaced(was.nullable, now.nullable, ADDED, ADDED_OPTIONAL);
    Joined(was.columns, now.columns, ADDED);
    forall fk ensures fk in now.fks <==> fk in was.fks {
      NoLinkAdded(s, m, faults, fk);
    }
  }

  lemma OptionalAdded()
    ensures ADDED_OPTIONAL <= ADDED
  {
  }

  lemma Replaced(was: set<string>, now: set<string>, added: set<string>, optional: set<string>)
    requires optional <= added
    requires forall c :: c in now <==> if c in added then c in optional else c in was
    ensures now == (was - added) + optional
  {
  }

  lemma Joined(was: set<string>, now: set<string>, added: set<string>)
    requires forall c :: c in now <==> c in was || c in added
    ensures now == was + added
  {
  }

  lemma OneAdded(s: Schema, m: Schema, faults: Faults, c: string)
    requires STOCK_LEDGERS in s.tables && s.tables[STOCK_LEDGERS].columns !! ADDED
    requires Enlarged(s, m, LedgerEnhancements(), faults)
    ensures var was, now := s.tables[STOCK_LEDGERS], m.tables[STOCK_LEDGERS];
            && (c in now.columns <==> c in was.columns || c in ADDED)
            && (c in now.nullable <==> if c in ADDED then c in ADDED_OPTIONAL else c in was.nullable)
  {
    hide LedgerEnhancements, IndexMade, LinkMade;
    var steps := LedgerEnhancements();
    assert TableEnlarged(s, m, steps, faults, STOCK_LEDGERS);
    forall step | step in steps
      ensures step.table == STOCK_LEDGERS && step.column in ADDED
      ensures step.nullable <==> step.column in ADDED_OPTIONAL
    {
      AddedSteps(step);
    }
    if c in ADDED {
      AddedColumn(c);
      var step :| step in steps && step.column == c;
      assert Due(s, step);
    }
  }

  lemma NoLinkAdded(s: Schema, m: Schema, faults: Faults, fk: ForeignKey)
    requires STOCK_LEDGERS in s.tables && Enlarged(s, m, LedgerEnhancements(), faults)
    ensures fk in m.tables[STOCK_LEDGERS].fks <==> fk in s.tables[STOCK_LEDGERS].fks
  {
    hide LedgerEnhancements, IndexMade;
    assert TableEnlarged(s, m, LedgerEnhancements(), faults, STOCK_LEDGERS);
    forall step | step in LedgerEnhancements() ensures !step.link.Link? {
      AddedSteps(step);
    }
    assert !AddsLink(LedgerEnhancements(), s, faults, STOCK_LEDGERS, fk);
  }

  // ---------------------------------------------------------------- after the stock engine

  const CREATED: set<string> :=
    {"id", "quantity", "direction", "running_balance", "transaction_date", "created_at", "reference_type",
     "reference_id", "remarks", "product_id", "transaction_type_id", "warehouse_id", "created_by",
     "storage_location_id", "unit_id"}

  const CREATED_OPTIONAL: set<string> :=
    {"reference_type", "reference_id", "remarks", "created_by", "storage_location_id", "unit_id"}

  /** The ledger as the stock engine creates it. */
  lemma StockLedgerColumns()
    ensures var t := StockLedgersTable().definition;
            t.columns == CREATED && t.nullable == CREATED_OPTIONAL
  {
    hide TableOk, NoRepeats;
    LedgerLinkColumns();
  }

  lemma LedgerLinkColumns()
    ensures LinkColumns({References("product_id", PRODUCTS),
                         References("transaction_type_id", INVENTORY_TRANSACTION_TYPES),
                         References("warehouse_id", WAREHOUSES)})
         == {"product_id", "transaction_type_id", "warehouse_id"}
    ensures LinkColumns({References("created_by", USERS), References("storage_location_id", STORAGE_LOCATIONS),
                         References("unit_id", UNIT_OF_MEASURES)})
         == {"created_by", "storage_location_id", "unit_id"}
  {
    assert forall c: string, t: TableName :: References(c, t).column == c;
  }

  /** Wherever the stock engine has been put in place, the ledger revision runs, even if it cannot look at
      the database, and it leaves the ledger with exactly these columns; the transaction type, which was
      required, is optional unless its change fails. */
  lemma LedgerAfterStock(s: Schema, inspected: bool, faults: Faults)
    requires Exec(s, StockUpgrade()).Ok?
    ensures var d := Exec(s, StockUpgrade()).schema;
            && !TypeOptional(d)
            && LedgerUpgrade(d, inspected, faults).Ok?
            && var u := LedgerUpgrade(d, inspected, faults).schema;
            && STOCK_LEDGERS in u.tables
            && u.tables[STOCK_LEDGERS].columns == CREATED + ADDED
            && u.tables[STOCK_LEDGERS].nullable
               == CREATED_OPTIONAL + ADDED_OPTIONAL
                  + if faults(STOCK_LEDGERS, "transaction_type_id") > 0 then {"transaction_type_id"} else {}
  {
    hide Exec, StockUpgrade, LedgerUpgrade, LedgerEnlarged, Columns, ColumnsPlus, LedgerColumns;
    var d := Exec(s, StockUpgrade()).schema;
    LedgerCreated(s);
    NoneAdded(d);
    LedgerUpgradeExactly(d, inspected, faults);
    LedgerUpgradeMakes(d, inspected, faults);
    LedgerNullability(d, LedgerUpgrade(d, inspected, faults).schema, faults);
  }

  lemma LedgerCreated(s: Schema)
    requires Exec(s, StockUpgrade()).Ok?
    ensures var d := Exec(s, StockUpgrade()).schema;
            && STOCK_LEDGERS in d.tables && d.tables[STOCK_LEDGERS].columns == CREATED
            && d.tables[STOCK_LEDGERS].nullable == CREATED_OPTIONAL
  {
    hide Exec, StockScript, StockLedgersTable, ScriptOk;
    StockScriptOk();
    CreatedExactly(s, StockScript());
    StockLedgerColumns();
    assert StockScript()[4].name == STOCK_LEDGERS;
  }

  lemma NoneAdded(d: Schema)
    requires STOCK_LEDGERS in d.tables && d.tables[STOCK_LEDGERS].columns !! ADDED
    ensures NonePresent(d, LedgerColumns())
  {
    hide LedgerEnhancements;
    forall m | m in LedgerColumns() ensures !Present(d, m.0, m.1) {
      var i :| 0 <= i < |LedgerEnhancements()|
        && m == (LedgerEnhancements()[i].table, LedgerEnhancements()[i].column);
      AddedSteps(LedgerEnhancements()[i]);
    }
  }
}
