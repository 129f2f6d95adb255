/** The two finance revisions as migrations: when they run, what they leave behind, and why they can
    only be taken back in reverse order. */
module FinanceMigrations {
  import opened SchemaModel
  import opened CreationScripts
  import opened FinanceTables

  function FinanceScript(): (script: seq<NewTable>)
    ensures |script| == 40
  {
    CoreScript() + OperationsScript()
  }

  function CoreUpgrade(): seq<Op> {
    CreateAll(CoreScript())
  }

  function OperationsUpgrade(): seq<Op> {
    CreateAll(OperationsScript())
  }

  /** What a caller can check before running both upgrades. */
  ghost predicate Startable(s: Schema) {
    && (forall t :: External(t) ==> HasKey(s, t))
    && (forall p :: 0 <= p < 40 ==> Known(p) !in s.tables)
    && (forall n, c :: n in FinanceScript() && c in n.indexed ==> Ix(n.name, c) !in s.indexes)
  }

  // ---------------------------------------------------------------- the scripts

  lemma FinancePlaced(i: nat)
    requires i < 40
    ensures Placed(FinanceScript()[i], i)
  {
    hide Placed, CoreScript, OperationsScript;
    CorePlaced(if i < 15 then i else 0);
    OperationsPlaced(if i < 15 then 0 else i - 15);
  }

  lemma CorePlaced(i: nat)
    requires i < 15
    ensures Placed(CoreScript()[i], i)
  {
    hide Placed, AccountGroupsTable, ChartOfAccountsTable, FiscalYearsTable, FiscalPeriodsTable, CurrenciesTable,
         ExchangeRatesTable, CostCentersTable, AccountingDimensionsTable, JournalTypesTable, JournalsTable,
         JournalLinesTable, TaxCategoriesTable, TaxRatesTable, PostingRulesTable, AccountingEventsTable;
  }

  lemma OperationsPlaced(i: nat)
    requires i < 25
    ensures Placed(OperationsScript()[i], 15 + i)
  {
    hide Placed, CustomerInvoicesTable, CustomerInvoiceLinesTable, CustomerCreditNotesTable,
         CustomerDebitNotesTable, CustomerLedgerEntriesTable, SupplierBillsTable, SupplierBillLinesTable,
         SupplierCreditNotesTable, SupplierDebitNotesTable, SupplierLedgerEntriesTable, BankAccountsTable,
         ReceiptVouchersTable, PaymentVouchersTable, PaymentAllocationsTable, BankTransactionsTable,
         BankStatementsTable, BankStatementLinesTable, BankReconciliationsTable, BankReconciliationItemsTable,
         AssetCategoriesTable, FixedAssetsTable, DepreciationSchedulesTable, BudgetsTable, BudgetLinesTable,
         FinancialStatementSnapshotsTable;
  }

  lemma ScriptsOk()
    ensures ScriptOk(CoreScript()) && ScriptOk(OperationsScript()) && ScriptOk(FinanceScript())
  {
    hide TableOk, CoreScript, OperationsScript;
    forall i | 0 <= i < 40 ensures TableOk(FinanceScript()[i]) && FinanceScript()[i].name == Known(i) {
      FinancePlaced(i);
    }
    assert forall i :: 0 <= i < 15 ==> CoreScript()[i] == FinanceScript()[i];
    assert forall i :: 0 <= i < 25 ==> OperationsScript()[i] == FinanceScript()[15 + i];
  }

  lemma {:induction false} CreateAllConcat(a: seq<NewTable>, b: seq<NewTable>)
    ensures CreateAll(a + b) == CreateAll(a) + CreateAll(b)
    decreases |b|
  {
    if |b| == 0 {
      assert a + b == a;
    } else {
      var init := b[..|b| - 1];
      assert (a + b)[..|a + b| - 1] == a + init;
      CreateAllConcat(a, init);
    }
  }

  lemma {:induction false} DropAllConcat(a: seq<NewTable>, b: seq<NewTable>)
    ensures DropAll(a + b) == DropAll(b) + DropAll(a)
    decreases |b|
  {
    if |b| == 0 {
      assert a + b == a;
    } else {
      var init := b[..|b| - 1];
      assert (a + b)[..|a + b| - 1] == a + init;
      DropAllConcat(a, init);
    }
  }

  lemma {:induction false} DropAllAt(script: seq<NewTable>)
    ensures |DropAll(script)| == |script|
    ensures forall i :: 0 <= i < |script| ==> DropAll(script)[i] == DropTable(script[|script| - 1 - i].name)
  {
    if |script| > 0 {
      DropAllAt(script[..|script| - 1]);
    }
  }

  /** Each downgrade drops the tables of its upgrade in exactly the reverse order. */
  lemma DowngradesReverseUpgrades()
    ensures CoreDowngrade() == DropAll(CoreScript())
    ensures OperationsDowngrade() == DropAll(OperationsScript())
  {
    hide CoreScript, OperationsScript, CoreDowngrade, OperationsDowngrade, DropAll;
    DropAllAt(CoreScript());
    DropAllAt(OperationsScript());
    CoreDowngradeAt();
    OperationsDowngradeAt();
  }

  lemma CoreDowngradeAt()
    ensures |CoreDowngrade()| == 15
    ensures forall i :: 0 <= i < 15 ==> CoreDowngrade()[i] == DropTable(CoreScript()[14 - i].name)
  {
    hide Placed, TableOk, CoreScript;
    forall i | 0 <= i < 15 ensures CoreDowngrade()[i] == DropTable(CoreScript()[14 - i].name) {
      CorePlaced(14 - i);
      NameAt(CoreScript()[14 - i], 14 - i);
    }
  }

  lemma OperationsDowngradeAt()
    ensures |OperationsDowngrade()| == 25
    ensures forall i :: 0 <= i < 25 ==> OperationsDowngrade()[i] == DropTable(OperationsScript()[24 - i].name)
  {
    hide Placed, TableOk, OperationsScript;
    forall i | 0 <= i < 25 ensures OperationsDowngrade()[i] == DropTable(OperationsScript()[24 - i].name) {
      OperationsPlaced(24 - i);
      NameAt(OperationsScript()[24 - i], 39 - i);
    }
  }

  lemma NameAt(n: NewTable, position: nat)
    requires Placed(n, position)
    ensures n.name == Known(position)
  {
  }

  // ---------------------------------------------------------------- when the upgrades run

  lemma CoreEntries()
    ensures CoreScript()[6] == CostCentersTable() && CoreScript()[9] == JournalsTable()
  {
    hide Placed, AccountGroupsTable, ChartOfAccountsTable, FiscalYearsTable, FiscalPeriodsTable, CurrenciesTable,
         ExchangeRatesTable, CostCentersTable, AccountingDimensionsTable, JournalTypesTable, JournalsTable,
         JournalLinesTable, TaxCategoriesTable, TaxRatesTable, PostingRulesTable, AccountingEventsTable;
  }

  lemma OperationsEntries()
    ensures OperationsScript()[0] == CustomerInvoicesTable() && OperationsScript()[1] == CustomerInvoiceLinesTable()
    ensures OperationsScript()[5] == SupplierBillsTable()
  {
    hide Placed, CustomerInvoicesTable, CustomerInvoiceLinesTable, CustomerCreditNotesTable, CustomerDebitNotesTable,
         CustomerLedgerEntriesTable, SupplierBillsTable, SupplierBillLinesTable, SupplierCreditNotesTable,
         SupplierDebitNotesTable, SupplierLedgerEntriesTable, BankAccountsTable, ReceiptVouchersTable,
         PaymentVouchersTable, PaymentAllocationsTable, BankTransactionsTable, BankStatementsTable,
         BankStatementLinesTable, BankReconciliationsTable, BankReconciliationItemsTable, AssetCategoriesTable,
         FixedAssetsTable, DepreciationSchedulesTable, BudgetsTable, BudgetLinesTable,
         FinancialStatementSnapshotsTable;
  }

  /** Every external table is really needed: the table at the returned position points to it. */
  lemma ExternalNeeded(t: TableName) returns (i: nat, fk: ForeignKey)
    requires External(t)
    ensures i < 40 && fk in FinanceScript()[i].definition.fks && fk.target == t
  {
    hide CoreScript, OperationsScript;
    CoreEntries();
    OperationsEntries();
    if t == DEPARTMENTS {
      i, fk := 6, References("department_id", DEPARTMENTS);
    } else if t == USERS {
      i, fk := 9, References("posted_by_id", USERS);
    } else if t == CUSTOMERS {
      i, fk := 15, References("customer_id", CUSTOMERS);
    } else if t == SALES_ORDERS {
      i, fk := 15, References("sales_order_id", SALES_ORDERS);
    } else if t == PRODUCTS {
      i, fk := 16, References("product_id", PRODUCTS);
    } else if t == SUPPLIERS {
      i, fk := 20, References("supplier_id", SUPPLIERS);
    } else {
      i, fk := 20, References("purchase_order_id", PURCHASE_ORDERS);
    }
  }

  lemma StartableIsReady(s: Schema)
    ensures Startable(s) <==> Ready(s, FinanceScript())
  {
    hide FinanceScript, TableOk;
    var script := FinanceScript();
    if Startable(s) {
      forall i | 0 <= i < 40 ensures ReadyAt(s, script, i) {
        assert Placed(script[i], i) by { FinancePlaced(i); }
        assert script[i] in script;
        forall fk | fk in script[i].definition.fks && !External(fk.target) && fk.target != Known(i)
          ensures CreatedBefore(script, i, fk.target)
        {
          FinancePlaced(fk.target.position);
          CreatedAt(script, fk.target.position, i);
        }
      }
    }
    if Ready(s, script) {
      forall t | External(t) ensures HasKey(s, t) {
        var i, fk := ExternalNeeded(t);
        assert ReadyAt(s, script, i);
        FinancePlaced(i);
        if CreatedBefore(script, i, t) {
          var j := CreatedWhere(script, i, t);
          FinancePlaced(j);
        }
      }
      forall i | 0 <= i < 40 ensures Known(i) !in s.tables {
        assert ReadyAt(s, script, i);
        FinancePlaced(i);
      }
      forall n, c | n in script && c in n.indexed ensures Ix(n.name, c) !in s.indexes {
        var i :| 0 <= i < 40 && script[i] == n;
        assert ReadyAt(s, script, i);
      }
    }
  }

  lemma BothUpgrades()
    ensures CoreUpgrade() + OperationsUpgrade() == CreateAll(FinanceScript())
    ensures OperationsDowngrade() + CoreDowngrade() == DropAll(FinanceScript())
  {
    hide CoreScript, OperationsScript, CreateAll, DropAll, CoreDowngrade, OperationsDowngrade;
    CreateAllConcat(CoreScript(), OperationsScript());
    DropAllConcat(CoreScript(), OperationsScript());
    DowngradesReverseUpgrades();
  }

  /** From any schema, both upgrades run through if and only if the seven external tables are there
      with their keys and none of the forty tables and their indexes is. */
  lemma UpgradesRunExactly(s: Schema)
    ensures Exec(s, CoreUpgrade() + OperationsUpgrade()).Ok? <==> Startable(s)
    ensures Startable(s) ==> Exec(s, CoreUpgrade() + OperationsUpgrade()) == Ok(Built(s, FinanceScript()))
  {
    hide *;
    BothUpgrades();
    ScriptsOk();
    StartableIsReady(s);
    CreateAllExactly(s, FinanceScript());
  }

  /** Round trip with referential safety: both upgrades and then both downgrades, newest first, all
      succeed, restore the starting schema, and never pass through a schema with a dangling foreign
      key. */
  lemma FinanceRoundTrip(s: Schema)
    requires Sound(s) && Startable(s)
    ensures var whole := CoreUpgrade() + OperationsUpgrade() + (OperationsDowngrade() + CoreDowngrade());
            && Exec(s, whole) == Ok(s)
            && forall n :: 0 <= n <= |whole| ==> Sound(Exec(s, whole[..n]).schema)
  {
    hide *;
    var up, down := CoreUpgrade() + OperationsUpgrade(), OperationsDowngrade() + CoreDowngrade();
    UpgradesRunExactly(s);
    BothUpgrades();
    ScriptsOk();
    StartableIsReady(s);
    DropAllRestores(s, FinanceScript());
    ExecConcat(s, up, down);
    ExecSound(s, up + down);
  }

  // ---------------------------------------------------------------- the wrong order

  predicate IsCore(t: TableName) {
    t.Known? && t.position < 15
  }

  lemma CoreNames(i: nat)
    requires i < 15
    ensures CoreScript()[i].name == Known(i)
  {
    hide CoreScript;
    CorePlaced(i);
    NameAt(CoreScript()[i], i);
  }

  /** The core downgrade runs, from any schema, exactly when all fifteen tables are there and every foreign
      key to one of them comes from that table or from a core table created after it. */
  lemma CoreDowngradeExactly(s: Schema)
    ensures Exec(s, CoreDowngrade()).Ok?
            <==> && (forall p :: 0 <= p < 15 ==> Known(p) in s.tables)
                 && (forall u, fk :: u in s.tables && fk in s.tables[u].fks && IsCore(fk.target) ==>
                       IsCore(u) && fk.target.position <= u.position)
  {
    hide *;
    var script := CoreScript();
    DowngradesReverseUpgrades();
    ScriptsOk();
    DropAllExactly(s, script);
    CoreDroppable(s, script);
  }

  lemma CoreDroppable(s: Schema, script: seq<NewTable>)
    requires script == CoreScript()
    ensures Droppable(s, script)
            <==> && (forall p :: 0 <= p < 15 ==> Known(p) in s.tables)
                 && (forall u, fk :: u in s.tables && fk in s.tables[u].fks && IsCore(fk.target) ==>
                       IsCore(u) && fk.target.position <= u.position)
  {
    hide CoreScript;
    forall i | 0 <= i < 15 ensures script[i].name == Known(i) {
      CoreNames(i);
    }
    forall i, u | 0 <= i < 15 ensures DroppedBefore(script, i, u) <==> IsCore(u) && i < u.position {
      if IsCore(u) && i < u.position {
        assert script[u.position].name == u;
      }
    }
    if Droppable(s, script) {
      forall p | 0 <= p < 15 ensures Known(p) in s.tables {
        assert script[p].name in s.tables;
      }
      forall u, fk | u in s.tables && fk in s.tables[u].fks && IsCore(fk.target)
        ensures IsCore(u) && fk.target.position <= u.position
      {
        assert fk.target == script[fk.target.position].name;
      }
    }
  }

  /** So it is refused wherever some table outside the core points to a core table. */
  lemma CoreDowngradeRefused(s: Schema, u: TableName, fk: ForeignKey)
    requires u in s.tables && fk in s.tables[u].fks && IsCore(fk.target) && !IsCore(u)
    ensures Exec(s, CoreDowngrade()).Refused?
  {
    hide CoreDowngrade, Exec;
    CoreDowngradeExactly(s);
  }

  /** In particular right after both upgrades: the operations tables still point to the core. */
  lemma CoreFirstIsRefused(s: Schema)
    requires Startable(s)
    ensures Exec(Exec(s, CoreUpgrade() + OperationsUpgrade()).schema, CoreDowngrade()).Refused?
  {
    hide CoreUpgrade, OperationsUpgrade, CoreDowngrade, CoreScript, OperationsScript, Startable, Exec, ScriptOk,
         TablesOf, IndexesOf, Placed;
    UpgradesRunExactly(s);
    OperationsEntries();
    FinancePlaced(16);
    NameAt(FinanceScript()[16], 16);
    ScriptsOk();
    EntryBuilt(FinanceScript(), 16);
    CoreDowngradeRefused(Built(s, FinanceScript()), CUSTOMER_INVOICE_LINES, References("tax_rate_id", TAX_RATES));
  }
}
