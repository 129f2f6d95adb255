/** Idempotent seeding of permissions, roles, types, grants and the admin. */
module RbacSeeder {
  // The database is a value whose tables map generated identifiers to rows; `Session` is the mutable
  // connection.  `lower` and `upper` stand for the case folding used on both sides of the lookups.

  import opened Wrappers

  type Id = nat

  datatype PermissionData = PermissionData(name: string, code: string, description: string, moduleName: string)
  datatype RoleData = RoleData(name: string, description: string)
  datatype TypeData = TypeData(code: string, name: string, direction: string, description: string)
  datatype UserData = UserData(email: string, username: string, isSuperuser: bool)

  datatype Db = Db(
    permissions: map<Id, PermissionData>,
    roles: map<Id, RoleData>,
    types: map<Id, TypeData>,
    users: map<Id, UserData>,
    grants: set<(Id, Id)>,      // role, permission
    userRoles: set<(Id, Id)>,   // user, role
    nextId: Id)

  datatype Defaults = Defaults(permissions: seq<PermissionData>, roles: seq<RoleData>, types: seq<TypeData>)

  datatype Folding = Folding(lower: string -> string, upper: string -> string)

  const SUPER_ADMIN := "Super Admin"
  const ADMIN_EMAIL := "admin@apnaerp.com"
  const ADMIN_USERNAME := "admin"

  // ---------------------------------------------------------------- role rules

  predicate StartsWith(s: string, prefix: string) {
    |prefix| <= |s| && s[..|prefix|] == prefix
  }

  predicate EndsWith(s: string, suffix: string) {
    |suffix| <= |s| && s[|s| - |suffix|..] == suffix
  }

  /** The roles that receive permissions, in the order in which they are tried. */
  const RULED_ROLES: seq<string> :=
    [SUPER_ADMIN, "HR Manager", "Inventory Manager", "Procurement Manager", "Procurement Viewer",
     "Sales Manager", "Sales Representative", "Sales Viewer", "CRM Manager", "CRM Viewer",
     "Finance Manager", "Chief Accountant", "Accountant", "Finance Viewer"]

  const HR_PREFIXES: set<string> :=
    {"department.", "employee.", "employee_document.", "position.", "hr_configuration.", "shift.",
     "holiday.", "attendance."}

  const SALES_REP_CODES: set<string> :=
    {"sales.customer.create", "sales.customer.read", "sales.customer.update",
     "sales.quotation.create", "sales.quotation.read", "sales.quotation.update",
     "sales.quotation.submit", "sales.quotation.cancel",
     "sales.order.create", "sales.order.read", "sales.order.update", "sales.order.submit", "sales.order.cancel",
     "sales.delivery.create", "sales.delivery.read", "sales.delivery.update",
     "sales.return.create", "sales.return.read", "sales.pricing.read",
     "crm.lead.create", "crm.lead.read", "crm.lead.update", "crm.lead.convert",
     "crm.opportunity.create", "crm.opportunity.read", "crm.opportunity.update", "crm.opportunity.stage",
     "crm.activity.create", "crm.activity.read", "crm.activity.update", "crm.activity.delete",
     "crm.meeting.create", "crm.meeting.read", "crm.meeting.update",
     "crm.task.create", "crm.task.read", "crm.task.update", "crm.search.read"}

  const ACCOUNTANT_CODES: set<string> :=
    {"finance.company.read", "finance.accounts.read", "finance.journal.create", "finance.journal.read",
     "finance.journal.update", "finance.journal.post", "finance.journal.reverse", "finance.journal.cancel",
     "finance.ledger.read", "finance.reports.read", "finance.fiscal.read", "finance.currency.read",
     "finance.tax.read", "finance.costcenter.read", "finance.receivable.read", "finance.receivable.create",
     "finance.payable.read", "finance.payable.create", "finance.payment.read", "finance.payment.create",
     "finance.payment.post"}

  predicate CrmViewable(code: string) {
    StartsWith(code, "crm.") && (EndsWith(code, ".read") || EndsWith(code, ".search"))
  }

  /** Which permission codes each role receives. */
  predicate Selects(role: string, code: string) {
    if role == SUPER_ADMIN then true
    else if role == "HR Manager" then exists p :: p in HR_PREFIXES && StartsWith(code, p)
    else if role == "Inventory Manager" then StartsWith(code, "inventory.")
    else if role == "Procurement Manager" then StartsWith(code, "procurement.")
    else if role == "Procurement Viewer" then
      StartsWith(code, "procurement.") && (EndsWith(code, ".read") || EndsWith(code, ".compare"))
    else if role == "Sales Manager" then StartsWith(code, "sales.")
    else if role == "Sales Representative" then code in SALES_REP_CODES
    else if role == "Sales Viewer" then (StartsWith(code, "sales.") && EndsWith(code, ".read")) || CrmViewable(code)
    else if role == "CRM Manager" then StartsWith(code, "crm.") || code == "sales.customer.read"
    else if role == "CRM Viewer" then CrmViewable(code) || code == "sales.customer.read"
    else if role == "Finance Manager" || role == "Chief Accountant" then StartsWith(code, "finance.")
    else if role == "Accountant" then code in ACCOUNTANT_CODES
    else if role == "Finance Viewer" then
      StartsWith(code, "finance.") && (EndsWith(code, ".read") || EndsWith(code, ".view"))
    else false
  }

  // ---------------------------------------------------------------- lookups

  /** The first row, by identifier, whose folded key is `key`. */
  function First(column: map<Id, string>, key: string, n: nat): (found: Option<Id>)
    ensures found.Some? ==> found.value < n && found.value in column && column[found.value] == key
    ensures found.Some? ==> forall i :: 0 <= i < found.value && i in column ==> column[i] != key
    ensures found.None? ==> forall i :: 0 <= i < n && i in column ==> column[i] != key
  {
    if n == 0 then None
    else
      var earlier := First(column, key, n - 1);
      if earlier.Some? then earlier
      else if n - 1 in column && column[n - 1] == key then Some(n - 1)
      else None
  }

  function Codes(f: Folding, db: Db): map<Id, string> {
    map i | i in db.permissions :: f.lower(db.permissions[i].code)
  }

  function RoleNames(f: Folding, db: Db): map<Id, string> {
    map i | i in db.roles :: f.lower(db.roles[i].name)
  }

  function TypeCodes(f: Folding, db: Db): map<Id, string> {
    map i | i in db.types :: f.upper(db.types[i].code)
  }

  function Emails(f: Folding, db: Db): map<Id, string> {
    map i | i in db.users :: f.lower(db.users[i].email)
  }

  function FindPermission(f: Folding, db: Db, code: string): Option<Id> {
    First(Codes(f, db), f.lower(code), db.nextId)
  }

  function FindRole(f: Folding, db: Db, name: string): Option<Id> {
    First(RoleNames(f, db), f.lower(name), db.nextId)
  }

  function FindType(f: Folding, db: Db, code: string): Option<Id> {
    First(TypeCodes(f, db), f.upper(code), db.nextId)
  }

  function FindUser(f: Folding, db: Db, email: string): Option<Id> {
    First(Emails(f, db), f.lower(email), db.nextId)
  }

  // ---------------------------------------------------------------- commits

  /** One commit of the seeding run. */
  datatype Commit =
    | AddPermission(permission: PermissionData)
    | AddRole(role: RoleData)
    | AddType(transactionType: TypeData)
    | AddGrant(roleName: string, code: string)
    | AddAdmin(withRole: bool)

  /** `Aborted` is a uniqueness violation: the exception ends the run, earlier commits stay. */
  datatype Outcome = Done(db: Db) | Aborted(db: Db)

  /** Column `permissions.name` is unique. */
  predicate NameTaken(db: Db, name: string) {
    exists i :: i in db.permissions && db.permissions[i].name == name
  }

  /** Column `users.username` is unique. */
  predicate UsernameTaken(db: Db, username: string) {
    exists i :: i in db.users && db.users[i].username == username
  }

  function Apply(f: Folding, db: Db, c: Commit): Outcome {
    var id := db.nextId;
    match c
    case AddPermission(p) =>
      if FindPermission(f, db, p.code).Some? then Done(db)
      else if NameTaken(db, p.name) then Aborted(db)
      else Done(db.(permissions := db.permissions[id := p], nextId := id + 1))
    case AddRole(r) =>
      if FindRole(f, db, r.name).Some? then Done(db)
      else Done(db.(roles := db.roles[id := r], nextId := id + 1))
    case AddType(t) =>
      if FindType(f, db, t.code).Some? then Done(db)
      else Done(db.(types := db.types[id := t], nextId := id + 1))
    case AddGrant(name, code) =>
      var role, permission := FindRole(f, db, name), FindPermission(f, db, code);
      if role.Some? && permission.Some? then Done(db.(grants := db.grants + {(role.value, permission.value)}))
      else Done(db)
    case AddAdmin(withRole) =>
      if FindUser(f, db, ADMIN_EMAIL).Some? then Done(db)
      else if UsernameTaken(db, ADMIN_USERNAME) then Aborted(db)
      else
        var role := FindRole(f, db, SUPER_ADMIN);
        Done(db.(users := db.users[id := UserData(ADMIN_EMAIL, ADMIN_USERNAME, true)],
                 userRoles := db.userRoles + if withRole && role.Some? then {(id, role.value)} else {},
                 nextId := id + 1))
  }

  function Exec(f: Folding, db: Db, plan: seq<Commit>): Outcome {
    if |plan| == 0 then Done(db)
    else
      match Exec(f, db, plan[..|plan| - 1])
      case Aborted(d) => Aborted(d)
      case Done(d) => Apply(f, d, plan[|plan| - 1])
  }

  predicate HasRole(defaults: Defaults, name: string) {
    exists i :: 0 <= i < |defaults.roles| && defaults.roles[i].name == name
  }

  /** The grants of one permission code, for the first `n` ruled roles. */
  function GrantsOf(defaults: Defaults, code: string, n: nat): seq<Commit>
    requires n <= |RULED_ROLES|
  {
    if n == 0 then []
    else
      GrantsOf(defaults, code, n - 1)
      + if HasRole(defaults, RULED_ROLES[n - 1]) && Selects(RULED_ROLES[n - 1], code)
        then [AddGrant(RULED_ROLES[n - 1], code)] else []
  }

  function AllGrants(defaults: Defaults, n: nat): seq<Commit>
    requires n <= |defaults.permissions|
  {
    if n == 0 then []
    else AllGrants(defaults, n - 1) + GrantsOf(defaults, defaults.permissions[n - 1].code, |RULED_ROLES|)
  }

  function PermissionRows(defaults: Defaults): seq<Commit> {
    seq(|defaults.permissions|, i requires 0 <= i < |defaults.permissions| => AddPermission(defaults.permissions[i]))
  }

  function RoleRows(defaults: Defaults): seq<Commit> {
    seq(|defaults.roles|, i requires 0 <= i < |defaults.roles| => AddRole(defaults.roles[i]))
  }

  function TypeRows(defaults: Defaults): seq<Commit> {
    seq(|defaults.types|, i requires 0 <= i < |defaults.types| => AddType(defaults.types[i]))
  }

  function Rows(defaults: Defaults): seq<Commit> {
    PermissionRows(defaults) + RoleRows(defaults) + TypeRows(defaults)
  }

  /** Every commit of a full run, in order. */
  function Plan(defaults: Defaults): seq<Commit> {
    Rows(defaults) + AllGrants(defaults, |defaults.permissions|) + [AddAdmin(HasRole(defaults, SUPER_ADMIN))]
  }
}
