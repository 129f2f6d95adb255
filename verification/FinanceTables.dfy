/** The finance revisions: v1.0.0 (core, fifteen tables) and v1.1.0 (operations, twenty-five tables
    on top of it).  Each table is its columns, required and optional, its foreign keys, required and
    optional, and the columns that get an index of their own, in the order of the script.  Column types,
    defaults and uniqueness constraints are not represented.  A table's position in `Known` is its
    place in the order in which the two revisions create their tables. */
module FinanceTables {
  import opened SchemaModel
  import opened CreationScripts

  // ---------------------------------------------------------------- v1.0.0 finance core

  /** Targets that neither revision creates. */
  predicate External(t: TableName) {
    t in {DEPARTMENTS, USERS, CUSTOMERS, SALES_ORDERS, PRODUCTS, SUPPLIERS, PURCHASE_ORDERS}
  }

  /** Where a table may stand: it must be well-formed and point only backwards, to itself, or outside
      the two revisions. */
  ghost function Place(n: NewTable): int {
    if && n.name.Known? && TableOk(n)
       && (forall fk :: fk in n.definition.fks ==>
             External(fk.target) || (fk.target.Known? && fk.target.position <= n.name.position))
    then n.name.position
    else -1
  }

  ghost predicate Placed(n: NewTable, position: nat) {
    Place(n) == position
  }

  function AccountGroupsTable(): (n: NewTable)
    ensures Placed(n, 0)
  {
    NewTable(ACCOUNT_GROUPS,
      Define({"created_at", "updated_at", "code", "name", "category", "display_order"},
             {},
             {},
             {References("parent_id", ACCOUNT_GROUPS)}),
      [])
  }

  function ChartOfAccountsTable(): (n: NewTable)
    ensures Placed(n, 1)
  {
    NewTable(CHART_OF_ACCOUNTS,
      Define({"created_at", "updated_at", "is_deleted", "account_code", "name", "account_type", "currency_code",
              "is_system", "is_control", "is_active", "opening_balance", "current_balance"},
             {"deleted_at", "notes"},
             {},
             {References("account_group_id", ACCOUNT_GROUPS), References("parent_id", CHART_OF_ACCOUNTS)}),
      [])
  }

  function FiscalYearsTable(): (n: NewTable)
    ensures Placed(n, 2)
  {
    NewTable(FISCAL_YEARS,
      Define({"created_at", "updated_at", "code", "name", "start_date", "end_date", "status"},
             {},
             {},
             {}),
      [])
  }

  function FiscalPeriodsTable(): (n: NewTable)
    ensures Placed(n, 3)
  {
    NewTable(FISCAL_PERIODS,
      Define({"created_at", "updated_at", "period_number", "name", "start_date", "end_date", "is_locked",
              "is_closed"},
             {},
             {References("fiscal_year_id", FISCAL_YEARS)},
             {}),
      [])
  }

  function CurrenciesTable(): (n: NewTable)
    ensures Placed(n, 4)
  {
    NewTable(CURRENCIES,
      Define({"created_at", "updated_at", "code", "name", "symbol", "is_base", "is_active", "decimal_places"},
             {},
             {},
             {}),
      [])
  }

  function ExchangeRatesTable(): (n: NewTable)
    ensures Placed(n, 5)
  {
    NewTable(EXCHANGE_RATES,
      Define({"created_at", "updated_at", "from_currency_code", "to_currency_code", "rate", "effective_date",
              "source", "is_active"},
             {},
             {},
             {}),
      [])
  }

  function CostCentersTable(): (n: NewTable)
    ensures Placed(n, 6)
  {
    NewTable(COST_CENTERS,
      Define({"created_at", "updated_at", "code", "name", "is_active"},
             {"business_unit"},
             {},
             {References("department_id", DEPARTMENTS), References("parent_id", COST_CENTERS)}),
      [])
  }

  function AccountingDimensionsTable(): (n: NewTable)
    ensures Placed(n, 7)
  {
    NewTable(ACCOUNTING_DIMENSIONS,
      Define({"created_at", "updated_at", "name", "dimension_type", "is_active", "is_required"},
             {},
             {},
             {}),
      [])
  }

  function JournalTypesTable(): (n: NewTable)
    ensures Placed(n, 8)
  {
    NewTable(JOURNAL_TYPES,
      Define({"created_at", "updated_at", "code", "name", "prefix", "requires_approval", "approval_threshold"},
             {},
             {},
             {}),
      [])
  }

  function JournalsTable(): (n: NewTable)
    ensures Placed(n, 9)
  {
    NewTable(JOURNALS,
      Define({"created_at", "updated_at", "is_deleted", "journal_number", "posting_date", "currency_code",
              "exchange_rate", "description", "status", "total_debit", "total_credit"},
             {"deleted_at", "reference_module", "reference_id", "posted_at", "reversal_reason", "approved_at"},
             {References("journal_type_id", JOURNAL_TYPES)},
             {References("approved_by_id", USERS), References("fiscal_period_id", FISCAL_PERIODS),
              References("posted_by_id", USERS), References("reversed_journal_id", JOURNALS)}),
      [])
  }

  function JournalLinesTable(): (n: NewTable)
    ensures Placed(n, 10)
  {
    NewTable(JOURNAL_LINES,
      Define({"created_at", "updated_at", "line_number", "debit", "credit", "reconciled"},
             {"description", "dimensions"},
             {References("account_id", CHART_OF_ACCOUNTS), References("journal_id", JOURNALS)},
             {References("cost_center_id", COST_CENTERS)}),
      [])
  }

  function TaxCategoriesTable(): (n: NewTable)
    ensures Placed(n, 11)
  {
    NewTable(TAX_CATEGORIES,
      Define({"created_at", "updated_at", "code", "name", "tax_type", "is_active"},
             {"description"},
             {},
             {}),
      [])
  }

  function TaxRatesTable(): (n: NewTable)
    ensures Placed(n, 12)
  {
    NewTable(TAX_RATES,
      Define({"created_at", "updated_at", "code", "name", "rate_percentage", "effective_from", "is_active"},
             {"effective_to"},
             {References("tax_category_id", TAX_CATEGORIES)},
             {References("account_id", CHART_OF_ACCOUNTS)}),
      [])
  }

  function PostingRulesTable(): (n: NewTable)
    ensures Placed(n, 13)
  {
    NewTable(POSTING_RULES,
      Define({"created_at", "updated_at", "event_name", "rule_code", "name", "is_active"},
             {"conditions"},
             {References("credit_account_id", CHART_OF_ACCOUNTS), References("debit_account_id", CHART_OF_ACCOUNTS),
              References("journal_type_id", JOURNAL_TYPES)},
             {References("tax_category_id", TAX_CATEGORIES)}),
      [])
  }

  function AccountingEventsTable(): (n: NewTable)
    ensures Placed(n, 14)
  {
    NewTable(ACCOUNTING_EVENTS,
      Define({"created_at", "updated_at", "event_type", "event_name", "entity_type", "entity_id", "payload",
              "timestamp"},
             {"user_id"},
             {},
             {}),
      [])
  }

  function CoreScript(): (script: seq<NewTable>)
    ensures |script| == 15
  {
    [AccountGroupsTable(), ChartOfAccountsTable(), FiscalYearsTable(), FiscalPeriodsTable(), CurrenciesTable(),
     ExchangeRatesTable(), CostCentersTable(), AccountingDimensionsTable(), JournalTypesTable(), JournalsTable(),
     JournalLinesTable(), TaxCategoriesTable(), TaxRatesTable(), PostingRulesTable(), AccountingEventsTable()]
  }

  // ---------------------------------------------------------------- v1.1.0 finance operations

  function CustomerInvoicesIndexed(): (columns: seq<string>)
    ensures NoRepeats(columns)
  {
    ["invoice_number", "customer_id", "status"]
  }

  function CustomerInvoicesTable(): (n: NewTable)
    ensures Placed(n, 15)
  {
    NewTable(CUSTOMER_INVOICES,
      Define({"invoice_number", "invoice_date", "due_date", "currency_code", "exchange_rate", "subtotal",
              "tax_amount", "total_amount", "paid_amount", "outstanding_amount", "status", "created_at",
              "updated_at"},
             {"notes"},
             {References("customer_id", CUSTOMERS)},
             {References("sales_order_id", SALES_ORDERS), References("journal_id", JOURNALS)}),
      CustomerInvoicesIndexed())
  }

  function CustomerInvoiceLinesTable(): (n: NewTable)
    ensures Placed(n, 16)
  {
    NewTable(CUSTOMER_INVOICE_LINES,
      Define({"description", "quantity", "unit_price", "subtotal", "tax_amount", "total_amount", "created_at",
              "updated_at"},
             {},
             {References("invoice_id", CUSTOMER_INVOICES), References("account_id", CHART_OF_ACCOUNTS)},
             {References("product_id", PRODUCTS), References("tax_rate_id", TAX_RATES)}),
      ["invoice_id"])
  }

  function CustomerCreditNotesTable(): (n: NewTable)
    ensures Placed(n, 17)
  {
    NewTable(CUSTOMER_CREDIT_NOTES,
      Define({"note_number", "issue_date", "amount", "reason", "status", "created_at", "updated_at"},
             {},
             {References("customer_id", CUSTOMERS)},
             {References("invoice_id", CUSTOMER_INVOICES), References("journal_id", JOURNALS)}),
      [])
  }

  function CustomerDebitNotesTable(): (n: NewTable)
    ensures Placed(n, 18)
  {
    NewTable(CUSTOMER_DEBIT_NOTES,
      Define({"note_number", "issue_date", "amount", "reason", "status", "created_at", "updated_at"},
             {},
             {References("customer_id", CUSTOMERS)},
             {References("invoice_id", CUSTOMER_INVOICES), References("journal_id", JOURNALS)}),
      [])
  }

  function CustomerLedgerEntriesTable(): (n: NewTable)
    ensures Placed(n, 19)
  {
    NewTable(CUSTOMER_LEDGER_ENTRIES,
      Define({"posting_date", "document_type", "document_number", "debit", "credit", "running_balance",
              "created_at", "updated_at"},
             {"description"},
             {References("customer_id", CUSTOMERS)},
             {References("journal_id", JOURNALS)}),
      ["customer_id"])
  }

  function SupplierBillsIndexed(): (columns: seq<string>)
    ensures NoRepeats(columns)
  {
    ["bill_number", "supplier_id"]
  }

  function SupplierBillsTable(): (n: NewTable)
    ensures Placed(n, 20)
  {
    NewTable(SUPPLIER_BILLS,
      Define({"bill_number", "bill_date", "due_date", "currency_code", "exchange_rate", "subtotal", "tax_amount",
              "total_amount", "paid_amount", "outstanding_amount", "status", "created_at", "updated_at"},
             {"vendor_bill_number", "notes"},
             {References("supplier_id", SUPPLIERS)},
             {References("purchase_order_id", PURCHASE_ORDERS), References("journal_id", JOURNALS)}),
      SupplierBillsIndexed())
  }

  function SupplierBillLinesTable(): (n: NewTable)
    ensures Placed(n, 21)
  {
    NewTable(SUPPLIER_BILL_LINES,
      Define({"description", "quantity", "unit_price", "subtotal", "tax_amount", "total_amount", "created_at",
              "updated_at"},
             {},
             {References("bill_id", SUPPLIER_BILLS), References("account_id", CHART_OF_ACCOUNTS)},
             {References("product_id", PRODUCTS), References("tax_rate_id", TAX_RATES)}),
      [])
  }

  function SupplierCreditNotesTable(): (n: NewTable)
    ensures Placed(n, 22)
  {
    NewTable(SUPPLIER_CREDIT_NOTES,
      Define({"note_number", "issue_date", "amount", "reason", "status", "created_at", "updated_at"},
             {},
             {References("supplier_id", SUPPLIERS)},
             {References("bill_id", SUPPLIER_BILLS), References("journal_id", JOURNALS)}),
      [])
  }

  function SupplierDebitNotesTable(): (n: NewTable)
    ensures Placed(n, 23)
  {
    NewTable(SUPPLIER_DEBIT_NOTES,
      Define({"note_number", "issue_date", "amount", "reason", "status", "created_at", "updated_at"},
             {},
             {References("supplier_id", SUPPLIERS)},
             {References("bill_id", SUPPLIER_BILLS), References("journal_id", JOURNALS)}),
      [])
  }

  function SupplierLedgerEntriesTable(): (n: NewTable)
    ensures Placed(n, 24)
  {
    NewTable(SUPPLIER_LEDGER_ENTRIES,
      Define({"posting_date", "document_type", "document_number", "debit", "credit", "running_balance",
              "created_at", "updated_at"},
             {"description"},
             {References("supplier_id", SUPPLIERS)},
             {References("journal_id", JOURNALS)}),
      ["supplier_id"])
  }

  function BankAccountsTable(): (n: NewTable)
    ensures Placed(n, 25)
  {
    NewTable(BANK_ACCOUNTS,
      Define({"account_name", "account_number", "bank_name", "currency_code", "current_balance", "is_active",
              "created_at", "updated_at"},
             {"branch_name", "swift_code", "iban"},
             {References("gl_account_id", CHART_OF_ACCOUNTS)},
             {}),
      [])
  }

  function ReceiptVouchersTable(): (n: NewTable)
    ensures Placed(n, 26)
  {
    NewTable(RECEIPT_VOUCHERS,
      Define({"voucher_number", "payment_mode", "receipt_date", "amount", "allocated_amount",
              "unallocated_amount", "status", "created_at", "updated_at"},
             {"reference_number", "notes"},
             {},
             {References("customer_id", CUSTOMERS), References("bank_account_id", BANK_ACCOUNTS),
              References("cash_account_id", CHART_OF_ACCOUNTS), References("journal_id", JOURNALS)}),
      [])
  }

  function PaymentVouchersTable(): (n: NewTable)
    ensures Placed(n, 27)
  {
    NewTable(PAYMENT_VOUCHERS,
      Define({"voucher_number", "payment_mode", "payment_date", "amount", "allocated_amount",
              "unallocated_amount", "status", "created_at", "updated_at"},
             {"reference_number", "notes"},
             {},
             {References("supplier_id", SUPPLIERS), References("bank_account_id", BANK_ACCOUNTS),
              References("cash_account_id", CHART_OF_ACCOUNTS), References("journal_id", JOURNALS)}),
      [])
  }

  function PaymentAllocationsTable(): (n: NewTable)
    ensures Placed(n, 28)
  {
    NewTable(PAYMENT_ALLOCATIONS,
      Define({"allocation_amount", "allocation_date", "created_at", "updated_at"},
             {},
             {},
             {References("receipt_voucher_id", RECEIPT_VOUCHERS),
              References("payment_voucher_id", PAYMENT_VOUCHERS),
              References("customer_invoice_id", CUSTOMER_INVOICES), References("supplier_bill_id", SUPPLIER_BILLS)}),
      [])
  }

  function BankTransactionsTable(): (n: NewTable)
    ensures Placed(n, 29)
  {
    NewTable(BANK_TRANSACTIONS,
      Define({"transaction_date", "transaction_type", "amount", "is_reconciled", "created_at", "updated_at"},
             {"reference_number", "payee_or_payer", "description"},
             {References("bank_account_id", BANK_ACCOUNTS)},
             {References("journal_id", JOURNALS)}),
      [])
  }

  function BankStatementsTable(): (n: NewTable)
    ensures Placed(n, 30)
  {
    NewTable(BANK_STATEMENTS,
      Define({"statement_number", "start_date", "end_date", "opening_balance", "closing_balance", "status",
              "created_at", "updated_at"},
             {},
             {References("bank_account_id", BANK_ACCOUNTS)},
             {}),
      [])
  }

  function BankStatementLinesTable(): (n: NewTable)
    ensures Placed(n, 31)
  {
    NewTable(BANK_STATEMENT_LINES,
      Define({"transaction_date", "amount", "is_matched", "created_at", "updated_at"},
             {"reference_number", "description"},
             {References("statement_id", BANK_STATEMENTS)},
             {References("matched_transaction_id", BANK_TRANSACTIONS)}),
      [])
  }

  function BankReconciliationsTable(): (n: NewTable)
    ensures Placed(n, 32)
  {
    NewTable(BANK_RECONCILIATIONS,
      Define({"reconciliation_date", "statement_balance", "gl_balance", "unreconciled_amount", "status",
              "created_at", "updated_at"},
             {},
             {References("bank_account_id", BANK_ACCOUNTS)},
             {}),
      [])
  }

  function BankReconciliationItemsTable(): (n: NewTable)
    ensures Placed(n, 33)
  {
    NewTable(BANK_RECONCILIATION_ITEMS,
      Define({"match_status", "created_at", "updated_at"},
             {},
             {References("reconciliation_id", BANK_RECONCILIATIONS)},
             {References("statement_line_id", BANK_STATEMENT_LINES),
              References("bank_transaction_id", BANK_TRANSACTIONS)}),
      [])
  }

  function AssetCategoriesTable(): (n: NewTable)
    ensures Placed(n, 34)
  {
    NewTable(ASSET_CATEGORIES,
      Define({"code", "name", "depreciation_method", "useful_life_years", "created_at", "updated_at"},
             {},
             {References("asset_account_id", CHART_OF_ACCOUNTS),
              References("accumulated_depreciation_account_id", CHART_OF_ACCOUNTS),
              References("depreciation_expense_account_id", CHART_OF_ACCOUNTS)},
             {}),
      [])
  }

  function FixedAssetsTable(): (n: NewTable)
    ensures Placed(n, 35)
  {
    NewTable(FIXED_ASSETS,
      Define({"asset_code", "name", "acquisition_date", "purchase_cost", "salvage_value", "current_book_value",
              "status", "created_at", "updated_at"},
             {},
             {References("category_id", ASSET_CATEGORIES)},
             {References("department_id", DEPARTMENTS)}),
      [])
  }

  function DepreciationSchedulesTable(): (n: NewTable)
    ensures Placed(n, 36)
  {
    NewTable(DEPRECIATION_SCHEDULES,
      Define({"schedule_date", "period_name", "depreciation_amount", "accumulated_depreciation",
              "ending_book_value", "status", "created_at", "updated_at"},
             {},
             {References("asset_id", FIXED_ASSETS)},
             {References("journal_id", JOURNALS)}),
      [])
  }

  function BudgetsTable(): (n: NewTable)
    ensures Placed(n, 37)
  {
    NewTable(BUDGETS,
      Define({"code", "name", "total_budgeted_amount", "total_actual_amount", "status", "created_at",
              "updated_at"},
             {},
             {References("fiscal_year_id", FISCAL_YEARS)},
             {References("department_id", DEPARTMENTS), References("cost_center_id", COST_CENTERS)}),
      [])
  }

  function BudgetLinesTable(): (n: NewTable)
    ensures Placed(n, 38)
  {
    NewTable(BUDGET_LINES,
      Define({"budgeted_amount", "actual_amount", "variance_amount", "created_at", "updated_at"},
             {},
             {References("budget_id", BUDGETS), References("account_id", CHART_OF_ACCOUNTS)},
             {}),
      [])
  }

  function FinancialStatementSnapshotsTable(): (n: NewTable)
    ensures Placed(n, 39)
  {
    NewTable(FINANCIAL_STATEMENT_SNAPSHOTS,
      Define({"statement_type", "as_of_date", "data", "created_at", "updated_at"},
             {},
             {},
             {References("period_id", FISCAL_PERIODS), References("generated_by_id", USERS)}),
      [])
  }

  function OperationsScript(): (script: seq<NewTable>)
    ensures |script| == 25
  {
    [CustomerInvoicesTable(), CustomerInvoiceLinesTable(), CustomerCreditNotesTable(), CustomerDebitNotesTable(),
     CustomerLedgerEntriesTable(), SupplierBillsTable(), SupplierBillLinesTable(), SupplierCreditNotesTable(),
     SupplierDebitNotesTable(), SupplierLedgerEntriesTable(), BankAccountsTable(), ReceiptVouchersTable(),
     PaymentVouchersTable(), PaymentAllocationsTable(), BankTransactionsTable(), BankStatementsTable(),
     BankStatementLinesTable(), BankReconciliationsTable(), BankReconciliationItemsTable(),
     AssetCategoriesTable(), FixedAssetsTable(), DepreciationSchedulesTable(), BudgetsTable(),
     BudgetLinesTable(), FinancialStatementSnapshotsTable()]
  }

  function CoreDowngrade(): seq<Op> {
    [DropTable(ACCOUNTING_EVENTS), DropTable(POSTING_RULES), DropTable(TAX_RATES), DropTable(TAX_CATEGORIES),
     DropTable(JOURNAL_LINES), DropTable(JOURNALS), DropTable(JOURNAL_TYPES), DropTable(ACCOUNTING_DIMENSIONS),
     DropTable(COST_CENTERS), DropTable(EXCHANGE_RATES), DropTable(CURRENCIES), DropTable(FISCAL_PERIODS),
     DropTable(FISCAL_YEARS), DropTable(CHART_OF_ACCOUNTS), DropTable(ACCOUNT_GROUPS)]
  }

  function OperationsDowngrade(): seq<Op> {
    [DropTable(FINANCIAL_STATEMENT_SNAPSHOTS), DropTable(BUDGET_LINES), DropTable(BUDGETS),
     DropTable(DEPRECIATION_SCHEDULES), DropTable(FIXED_ASSETS), DropTable(ASSET_CATEGORIES),
     DropTable(BANK_RECONCILIATION_ITEMS), DropTable(BANK_RECONCILIATIONS), DropTable(BANK_STATEMENT_LINES),
     DropTable(BANK_STATEMENTS), DropTable(BANK_TRANSACTIONS), DropTable(PAYMENT_ALLOCATIONS),
     DropTable(PAYMENT_VOUCHERS), DropTable(RECEIPT_VOUCHERS), DropTable(BANK_ACCOUNTS),
     DropTable(SUPPLIER_LEDGER_ENTRIES), DropTable(SUPPLIER_DEBIT_NOTES), DropTable(SUPPLIER_CREDIT_NOTES),
     DropTable(SUPPLIER_BILL_LINES), DropTable(SUPPLIER_BILLS), DropTable(CUSTOMER_LEDGER_ENTRIES),
     DropTable(CUSTOMER_DEBIT_NOTES), DropTable(CUSTOMER_CREDIT_NOTES), DropTable(CUSTOMER_INVOICE_LINES),
     DropTable(CUSTOMER_INVOICES)]
  }
}
