/** The stock engine (v0.6.1) and warehouse operations (v0.6.2) revisions.  Each table is its columns,
    required and optional, its foreign keys, required and optional, and the columns that get an index of
    their own, in the order of the script.  The drops of each downgrade are written out as the script has
    them, table by table, and proved to undo the creation of their table.  Column types, defaults and
    uniqueness constraints are not represented. */
module WarehouseTables {
  import opened SchemaModel
  import opened CreationScripts

  // ---------------------------------------------------------------- v0.6.1 stock engine

  function InventoryTransactionTypesTable(): (n: NewTable)
    ensures TableOk(n) && n.name == INVENTORY_TRANSACTION_TYPES
  {
    NewTable(INVENTORY_TRANSACTION_TYPES,
      Define({"code", "name", "direction", "is_active", "created_at", "updated_at"},
             {"description"},
             {},
             {}),
      ["code", "id"])
  }

  function InventoryAdjustmentsIndexed(): (columns: seq<string>)
    ensures NoRepeats(columns)
  {
    ["id", "location_id", "product_id", "status", "warehouse_id"]
  }

  function InventoryAdjustmentsTable(): (n: NewTable)
    ensures TableOk(n) && n.name == INVENTORY_ADJUSTMENTS
  {
    NewTable(INVENTORY_ADJUSTMENTS,
      Define({"adjustment_type", "reason", "expected_quantity", "actual_quantity", "difference", "status",
              "created_at", "updated_at"},
             {"approved_at"},
             {References("product_id", PRODUCTS), References("warehouse_id", WAREHOUSES)},
             {References("approved_by", USERS), References("created_by", USERS),
              References("location_id", STORAGE_LOCATIONS)}),
      InventoryAdjustmentsIndexed())
  }

  function OpeningStocksIndexed(): (columns: seq<string>)
    ensures NoRepeats(columns)
  {
    ["id", "location_id", "product_id", "reference_number", "warehouse_id"]
  }

  function OpeningStocksTable(): (n: NewTable)
    ensures TableOk(n) && n.name == OPENING_STOCKS
  {
    NewTable(OPENING_STOCKS,
      Define({"quantity", "reference_number", "created_at"},
             {},
             {References("product_id", PRODUCTS), References("warehouse_id", WAREHOUSES)},
             {References("approved_by", USERS), References("created_by", USERS),
              References("location_id", STORAGE_LOCATIONS)}),
      OpeningStocksIndexed())
  }

  function StockBalancesIndexed(): (columns: seq<string>)
    ensures NoRepeats(columns)
  {
    ["id", "product_id", "storage_location_id", "warehouse_id"]
  }

  function StockBalancesTable(): (n: NewTable)
    ensures TableOk(n) && n.name == STOCK_BALANCES
  {
    NewTable(STOCK_BALANCES,
      Define({"available_quantity", "reserved_quantity", "damaged_quantity", "in_transit_quantity",
              "last_calculated"},
             {},
             {References("product_id", PRODUCTS), References("warehouse_id", WAREHOUSES)},
             {References("storage_location_id", STORAGE_LOCATIONS)}),
      StockBalancesIndexed())
  }

  function StockLedgersIndexed(): (columns: seq<string>)
    ensures NoRepeats(columns)
  {
    ["id", "product_id", "reference_id", "reference_type", "storage_location_id", "transaction_date",
     "transaction_type_id"]
  }

  function StockLedgersTable(): (n: NewTable)
    ensures TableOk(n) && n.name == STOCK_LEDGERS
  {
    NewTable(STOCK_LEDGERS,
      Define({"quantity", "direction", "running_balance", "transaction_date", "created_at"},
             {"reference_type", "reference_id", "remarks"},
             {References("product_id", PRODUCTS), References("transaction_type_id", INVENTORY_TRANSACTION_TYPES),
              References("warehouse_id", WAREHOUSES)},
             {References("created_by", USERS), References("storage_location_id", STORAGE_LOCATIONS),
              References("unit_id", UNIT_OF_MEASURES)}),
      StockLedgersIndexed())
  }

  function StockScript(): seq<NewTable> {
    [InventoryTransactionTypesTable(), InventoryAdjustmentsTable(), OpeningStocksTable(), StockBalancesTable(),
     StockLedgersTable()]
  }

  function StockLedgersDrops(): (ops: seq<Op>)
    ensures ops == UndoOps(StockLedgersTable())
  {
    [DropIndex(Ix(STOCK_LEDGERS, "transaction_type_id")), DropIndex(Ix(STOCK_LEDGERS, "transaction_date")),
     DropIndex(Ix(STOCK_LEDGERS, "storage_location_id")), DropIndex(Ix(STOCK_LEDGERS, "reference_type")),
     DropIndex(Ix(STOCK_LEDGERS, "reference_id")), DropIndex(Ix(STOCK_LEDGERS, "product_id")),
     DropIndex(Ix(STOCK_LEDGERS, "id")), DropTable(STOCK_LEDGERS)]
  }

  function StockBalancesDrops(): (ops: seq<Op>)
    ensures ops == UndoOps(StockBalancesTable())
  {
    [DropIndex(Ix(STOCK_BALANCES, "warehouse_id")), DropIndex(Ix(STOCK_BALANCES, "storage_location_id")),
     DropIndex(Ix(STOCK_BALANCES, "product_id")), DropIndex(Ix(STOCK_BALANCES, "id")), DropTable(STOCK_BALANCES)]
  }

  function OpeningStocksDrops(): (ops: seq<Op>)
    ensures ops == UndoOps(OpeningStocksTable())
  {
    [DropIndex(Ix(OPENING_STOCKS, "warehouse_id")), DropIndex(Ix(OPENING_STOCKS, "reference_number")),
     DropIndex(Ix(OPENING_STOCKS, "product_id")), DropIndex(Ix(OPENING_STOCKS, "location_id")),
     DropIndex(Ix(OPENING_STOCKS, "id")), DropTable(OPENING_STOCKS)]
  }

  function InventoryAdjustmentsDrops(): (ops: seq<Op>)
    ensures ops == UndoOps(InventoryAdjustmentsTable())
  {
    [DropIndex(Ix(INVENTORY_ADJUSTMENTS, "warehouse_id")), DropIndex(Ix(INVENTORY_ADJUSTMENTS, "status")),
     DropIndex(Ix(INVENTORY_ADJUSTMENTS, "product_id")), DropIndex(Ix(INVENTORY_ADJUSTMENTS, "location_id")),
     DropIndex(Ix(INVENTORY_ADJUSTMENTS, "id")), DropTable(INVENTORY_ADJUSTMENTS)]
  }

  function InventoryTransactionTypesDrops(): (ops: seq<Op>)
    ensures ops == UndoOps(InventoryTransactionTypesTable())
  {
    [DropIndex(Ix(INVENTORY_TRANSACTION_TYPES, "id")), DropIndex(Ix(INVENTORY_TRANSACTION_TYPES, "code")),
     DropTable(INVENTORY_TRANSACTION_TYPES)]
  }

  const WAREHOUSE_INDEX := Ix(STOCK_LEDGERS, "warehouse_id")

  function StockUpgrade(): seq<Op> {
    CreateAll(StockScript())
  }

  /** Begins by dropping an index that the upgrade does not create. */
  function StockDowngrade(): seq<Op> {
    [DropIndex(WAREHOUSE_INDEX)]
    + StockLedgersDrops()
    + StockBalancesDrops()
    + OpeningStocksDrops()
    + InventoryAdjustmentsDrops()
    + InventoryTransactionTypesDrops()
  }

  // ---------------------------------------------------------------- v0.6.2 warehouse operations

  function GoodsIssuesIndexed(): (columns: seq<string>)
    ensures NoRepeats(columns)
  {
    ["id", "issue_number", "status", "warehouse_id"]
  }

  function GoodsIssuesTable(): (n: NewTable)
    ensures TableOk(n) && n.name == GOODS_ISSUES
  {
    NewTable(GOODS_ISSUES,
      Define({"issue_number", "issue_date", "issue_reason", "status", "created_at", "updated_at"},
             {"remarks", "approved_at"},
             {References("warehouse_id", WAREHOUSES)},
             {References("approved_by", USERS), References("created_by", USERS)}),
      GoodsIssuesIndexed())
  }

  function GoodsReceiptsIndexed(): (columns: seq<string>)
    ensures NoRepeats(columns)
  {
    ["id", "receipt_number", "status", "warehouse_id"]
  }

  function GoodsReceiptsTable(): (n: NewTable)
    ensures TableOk(n) && n.name == GOODS_RECEIPTS
  {
    NewTable(GOODS_RECEIPTS,
      Define({"receipt_number", "receipt_date", "status", "created_at", "updated_at"},
             {"supplier_reference", "external_reference", "remarks", "approved_at"},
             {References("warehouse_id", WAREHOUSES)},
             {References("approved_by", USERS), References("created_by", USERS)}),
      GoodsReceiptsIndexed())
  }

  function StockTransfersIndexed(): (columns: seq<string>)
    ensures NoRepeats(columns)
  {
    ["destination_location_id", "destination_warehouse_id", "id", "source_location_id", "source_warehouse_id",
     "status", "transfer_number"]
  }

  function StockTransfersTable(): (n: NewTable)
    ensures TableOk(n) && n.name == STOCK_TRANSFERS
  {
    NewTable(STOCK_TRANSFERS,
      Define({"transfer_number", "transfer_date", "status", "created_at", "updated_at"},
             {"remarks"},
             {References("destination_warehouse_id", WAREHOUSES), References("source_warehouse_id", WAREHOUSES)},
             {References("approved_by", USERS), References("completed_by", USERS),
              References("created_by", USERS), References("destination_location_id", STORAGE_LOCATIONS),
              References("source_location_id", STORAGE_LOCATIONS)}),
      StockTransfersIndexed())
  }

  function GoodsIssueItemsIndexed(): (columns: seq<string>)
    ensures NoRepeats(columns)
  {
    ["goods_issue_id", "id", "product_id", "storage_location_id"]
  }

  function GoodsIssueItemsTable(): (n: NewTable)
    ensures TableOk(n) && n.name == GOODS_ISSUE_ITEMS
  {
    NewTable(GOODS_ISSUE_ITEMS,
      Define({"quantity"},
             {"remarks"},
             {References("goods_issue_id", GOODS_ISSUES), References("product_id", PRODUCTS)},
             {References("storage_location_id", STORAGE_LOCATIONS), References("unit_id", UNIT_OF_MEASURES)}),
      GoodsIssueItemsIndexed())
  }

  function GoodsReceiptItemsIndexed(): (columns: seq<string>)
    ensures NoRepeats(columns)
  {
    ["goods_receipt_id", "id", "product_id", "storage_location_id"]
  }

  function GoodsReceiptItemsTable(): (n: NewTable)
    ensures TableOk(n) && n.name == GOODS_RECEIPT_ITEMS
  {
    NewTable(GOODS_RECEIPT_ITEMS,
      Define({"quantity"},
             {"unit_cost", "remarks"},
             {References("goods_receipt_id", GOODS_RECEIPTS), References("product_id", PRODUCTS)},
             {References("storage_location_id", STORAGE_LOCATIONS), References("unit_id", UNIT_OF_MEASURES)}),
      GoodsReceiptItemsIndexed())
  }

  function StockTransferItemsTable(): (n: NewTable)
    ensures TableOk(n) && n.name == STOCK_TRANSFER_ITEMS
  {
    NewTable(STOCK_TRANSFER_ITEMS,
      Define({"quantity"},
             {"remarks"},
             {References("product_id", PRODUCTS), References("transfer_id", STOCK_TRANSFERS)},
             {References("unit_id", UNIT_OF_MEASURES)}),
      ["id", "product_id", "transfer_id"])
  }

  function WarehouseScript(): seq<NewTable> {
    [GoodsIssuesTable(), GoodsReceiptsTable(), StockTransfersTable(), GoodsIssueItemsTable(),
     GoodsReceiptItemsTable(), StockTransferItemsTable()]
  }

  function StockTransferItemsDrops(): (ops: seq<Op>)
    ensures ops == UndoOps(StockTransferItemsTable())
  {
    [DropIndex(Ix(STOCK_TRANSFER_ITEMS, "transfer_id")), DropIndex(Ix(STOCK_TRANSFER_ITEMS, "product_id")),
     DropIndex(Ix(STOCK_TRANSFER_ITEMS, "id")), DropTable(STOCK_TRANSFER_ITEMS)]
  }

  function GoodsReceiptItemsDrops(): (ops: seq<Op>)
    ensures ops == UndoOps(GoodsReceiptItemsTable())
  {
    [DropIndex(Ix(GOODS_RECEIPT_ITEMS, "storage_location_id")), DropIndex(Ix(GOODS_RECEIPT_ITEMS, "product_id")),
     DropIndex(Ix(GOODS_RECEIPT_ITEMS, "id")), DropIndex(Ix(GOODS_RECEIPT_ITEMS, "goods_receipt_id")),
     DropTable(GOODS_RECEIPT_ITEMS)]
  }

  function GoodsIssueItemsDrops(): (ops: seq<Op>)
    ensures ops == UndoOps(GoodsIssueItemsTable())
  {
    [DropIndex(Ix(GOODS_ISSUE_ITEMS, "storage_location_id")), DropIndex(Ix(GOODS_ISSUE_ITEMS, "product_id")),
     DropIndex(Ix(GOODS_ISSUE_ITEMS, "id")), DropIndex(Ix(GOODS_ISSUE_ITEMS, "goods_issue_id")),
     DropTable(GOODS_ISSUE_ITEMS)]
  }

  function StockTransfersDrops(): (ops: seq<Op>)
    ensures ops == UndoOps(StockTransfersTable())
  {
    [DropIndex(Ix(STOCK_TRANSFERS, "transfer_number")), DropIndex(Ix(STOCK_TRANSFERS, "status")),
     DropIndex(Ix(STOCK_TRANSFERS, "source_warehouse_id")), DropIndex(Ix(STOCK_TRANSFERS, "source_location_id")),
     DropIndex(Ix(STOCK_TRANSFERS, "id")), DropIndex(Ix(STOCK_TRANSFERS, "destination_warehouse_id")),
     DropIndex(Ix(STOCK_TRANSFERS, "destination_location_id")), DropTable(STOCK_TRANSFERS)]
  }

  function GoodsReceiptsDrops(): (ops: seq<Op>)
    ensures ops == UndoOps(GoodsReceiptsTable())
  {
    [DropIndex(Ix(GOODS_RECEIPTS, "warehouse_id")), DropIndex(Ix(GOODS_RECEIPTS, "status")),
     DropIndex(Ix(GOODS_RECEIPTS, "receipt_number")), DropIndex(Ix(GOODS_RECEIPTS, "id")),
     DropTable(GOODS_RECEIPTS)]
  }

  function GoodsIssuesDrops(): (ops: seq<Op>)
    ensures ops == UndoOps(GoodsIssuesTable())
  {
    [DropIndex(Ix(GOODS_ISSUES, "warehouse_id")), DropIndex(Ix(GOODS_ISSUES, "status")),
     DropIndex(Ix(GOODS_ISSUES, "issue_number")), DropIndex(Ix(GOODS_ISSUES, "id")), DropTable(GOODS_ISSUES)]
  }

  /** The definition with which the downgrade brings `dummy_products` back. */
  function DummyProductsTable(): (n: NewTable)
    ensures TableOk(n) && n.name == DUMMY_PRODUCTS
  {
    NewTable(DUMMY_PRODUCTS,
      Define({"name", "code", "price", "created_at", "updated_at", "is_deleted"},
             {"deleted_at"},
             {},
             {}),
      ["is_deleted", "id"])
  }

  function WarehouseUpgrade(): seq<Op> {
    CreateAll(WarehouseScript())
    + [DropIndex(Ix(DUMMY_PRODUCTS, "id")), DropIndex(Ix(DUMMY_PRODUCTS, "is_deleted")), DropTable(DUMMY_PRODUCTS),
       CreateIndex(WAREHOUSE_INDEX, STOCK_LEDGERS, {"warehouse_id"})]
  }

  function WarehouseDowngrade(): seq<Op> {
    [DropIndex(WAREHOUSE_INDEX)]
    + CreateOps(DummyProductsTable())
    + StockTransferItemsDrops()
    + GoodsReceiptItemsDrops()
    + GoodsIssueItemsDrops()
    + StockTransfersDrops()
    + GoodsReceiptsDrops()
    + GoodsIssuesDrops()
  }
}
