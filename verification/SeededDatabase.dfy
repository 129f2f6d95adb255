/** What a finished seeding run leaves in every table. */
module SeededDatabase {
  import opened RbacSeeder
  import opened SeedingTheorems
  import opened Wrappers

  // ---------------------------------------------------------------- the role rules

  /** The rules said by cutting the code in pieces. */
  lemma StoreRules(code: string)
    ensures Selects("Super Admin", code)
    ensures Selects("Inventory Manager", code) <==> exists rest: string :: code == "inventory." + rest
    ensures Selects("Procurement Manager", code) <==> exists rest: string :: code == "procurement." + rest
    ensures Selects("Procurement Viewer", code)
            <==> Cut(code, "procurement.", ".read") || Cut(code, "procurement.", ".compare")
  {
    hide StartsWith, EndsWith, Cut;
    Pieces(code);
  }

  lemma PersonnelRules(code: string)
    ensures Selects("HR Manager", code)
            <==> exists p, rest: string ::
                   p in ["department.", "employee.", "employee_document.", "position.", "hr_configuration.",
                         "shift.", "holiday.", "attendance."] && code == p + rest
  {
    hide StartsWith, EndsWith, Cut;
    Pieces(code);
  }

  lemma CustomerRules(code: string)
    ensures Selects("Sales Manager", code) <==> exists rest: string :: code == "sales." + rest
    ensures Selects("Sales Viewer", code)
            <==> Cut(code, "sales.", ".read") || Cut(code, "crm.", ".read") || Cut(code, "crm.", ".search")
    ensures Selects("CRM Manager", code)
            <==> code == "sales.customer.read" || exists rest: string :: code == "crm." + rest
    ensures Selects("CRM Viewer", code)
            <==> code == "sales.customer.read" || Cut(code, "crm.", ".read") || Cut(code, "crm.", ".search")
  {
    hide StartsWith, EndsWith, Cut;
    Pieces(code);
  }

  lemma FinanceRules(code: string)
    ensures Selects("Finance Manager", code) <==> exists rest: string :: code == "finance." + rest
    ensures Selects("Chief Accountant", code) <==> exists rest: string :: code == "finance." + rest
    ensures Selects("Finance Viewer", code) <==> Cut(code, "finance.", ".read") || Cut(code, "finance.", ".view")
  {
    hide StartsWith, EndsWith, Cut;
    Pieces(code);
  }

  lemma Pieces(code: string)
    ensures forall p :: StartsWith(code, p) <==> exists rest: string :: code == p + rest
    ensures forall p, s :: Cut(code, p, s) <==> StartsWith(code, p) && EndsWith(code, s)
  {
    forall p ensures StartsWith(code, p) <==> exists rest: string :: code == p + rest {
      PrefixExactly(code, p);
    }
    forall s ensures EndsWith(code, s) <==> exists rest: string :: code == rest + s {
      SuffixExactly(code, s);
    }
    hide StartsWith, EndsWith;
  }

  /** The code begins with one piece and ends with the other; the two may overlap. */
  ghost predicate Cut(code: string, first: string, last: string) {
    (exists rest: string :: code == first + rest) && (exists rest: string :: code == rest + last)
  }

  lemma PrefixExactly(s: string, prefix: string)
    ensures StartsWith(s, prefix) <==> exists rest: string :: s == prefix + rest
  {
    if StartsWith(s, prefix) {
      assert s == prefix + s[|prefix|..];
    }
  }

  lemma SuffixExactly(s: string, suffix: string)
    ensures EndsWith(s, suffix) <==> exists rest: string :: s == rest + suffix
  {
    if EndsWith(s, suffix) {
      assert s == s[..|s| - |suffix|] + suffix;
    }
  }

  /** Nobody does more than the managers: what a viewer, the representative or the accountant may do, a manager
      of the same area may do as well. */
  lemma ManagersCoverTheirStaff(code: string)
    ensures Selects("Procurement Viewer", code) ==> Selects("Procurement Manager", code)
    ensures Selects("CRM Viewer", code) ==> Selects("CRM Manager", code)
    ensures Selects("Finance Viewer", code) ==> Selects("Finance Manager", code)
    ensures Selects("Accountant", code) ==> Selects("Finance Manager", code)
    ensures Selects("Sales Representative", code) || Selects("Sales Viewer", code)
            ==> Selects("Sales Manager", code) || Selects("CRM Manager", code)
  {
    hide StartsWith, EndsWith, Selects;
    StoreRules(code);
    CustomerRules(code);
    FinanceRules(code);
    ListedCovered(code);
  }

  lemma ListedCovered(code: string)
    ensures Selects("Sales Representative", code) ==> Selects("Sales Manager", code) || Selects("CRM Manager", code)
    ensures Selects("Accountant", code) ==> Selects("Finance Manager", code)
  {
    hide StartsWith, EndsWith;
    ListedCodes(code);
  }

  lemma ListedCodes(code: string)
    ensures code in SALES_REP_CODES ==> StartsWith(code, "sales.") || StartsWith(code, "crm.")
    ensures code in ACCOUNTANT_CODES ==> StartsWith(code, "finance.")
  {
  }

  // ---------------------------------------------------------------- lookups

  /** A lookup finds the row with the lowest identifier among those whose folded key is the folded search
      key, and nothing exactly when there is none. */
  lemma LookupsExactly(f: Folding, db: Db, key: string, id: Id)
    requires Valid(db)
    ensures FindPermission(f, db, key) == Some(id)
            <==> && id in db.permissions && f.lower(db.permissions[id].code) == f.lower(key)
                 && forall i :: i in db.permissions && f.lower(db.permissions[i].code) == f.lower(key) ==> id <= i
    ensures FindRole(f, db, key) == Some(id)
            <==> && id in db.roles && f.lower(db.roles[id].name) == f.lower(key)
                 && forall i :: i in db.roles && f.lower(db.roles[i].name) == f.lower(key) ==> id <= i
  {
    hide First;
    PermissionMissing(f, db, key);
    RoleMissing(f, db, key);
    assert forall i :: i in db.permissions ==> i in Codes(f, db);
    assert forall i :: i in db.roles ==> i in RoleNames(f, db);
  }

  // ---------------------------------------------------------------- tables that are filled up

  /** The key of a default is in use neither in the table nor by an earlier default. */
  ghost predicate Missing<T(!new)>(key: T -> string, before: map<Id, T>, defaults: seq<T>, j: nat)
    requires j < |defaults|
  {
    && (forall i :: i in before ==> key(before[i]) != key(defaults[j]))
    && (forall m :: 0 <= m < j ==> key(defaults[m]) != key(defaults[j]))
  }

  /** New rows are missing defaults, no two of them with the same key. */
  ghost predicate NewRowsMissing<T(!new)>(key: T -> string, before: map<Id, T>, after: map<Id, T>, defaults: seq<T>) {
    && (forall i :: i in after && i !in before ==>
          exists j :: 0 <= j < |defaults| && Missing(key, before, defaults, j) && after[i] == defaults[j])
    && (forall i, i' :: i in after && i' in after && i !in before && i' !in before && key(after[i]) == key(after[i'])
                        ==> i == i')
  }

  ghost predicate InUse<T(!new)>(key: T -> string, table: map<Id, T>, row: T) {
    exists i :: i in table && key(table[i]) == key(row)
  }

  /** The table holds its old rows as they were and one new row for each missing default, so that every
      default's key is in use. */
  ghost predicate FilledUp<T(!new)>(key: T -> string, before: map<Id, T>, after: map<Id, T>, defaults: seq<T>) {
    && (forall i :: i in before ==> i in after && after[i] == before[i])
    && NewRowsMissing(key, before, after, defaults)
    && (forall j :: 0 <= j < |defaults| ==> InUse(key, after, defaults[j]))
  }

  lemma FilledUpStep<T(!new)>(key: T -> string, before: map<Id, T>, after: map<Id, T>, defaults: seq<T>, n: nat,
                              id: Id, later: map<Id, T>)
    requires n < |defaults| && FilledUp(key, before, after, defaults[..n]) && id !in after
    requires later == if InUse(key, after, defaults[n]) then after else after[id := defaults[n]]
    ensures FilledUp(key, before, later, defaults[..n + 1])
  {
    hide NewRowsMissing, Missing;
    NewRowsStep(key, before, after, defaults, n, id, later);
    forall j | 0 <= j < n + 1 ensures InUse(key, later, defaults[j]) {
      if j < n {
        assert InUse(key, after, defaults[..n][j]);
        var i :| i in after && key(after[i]) == key(defaults[j]);
        assert i in later && later[i] == after[i];
      } else if later != after {
        assert id in later;
      }
    }
  }

  lemma NewRowsStep<T(!new)>(key: T -> string, before: map<Id, T>, after: map<Id, T>, defaults: seq<T>, n: nat,
                             id: Id, later: map<Id, T>)
    requires n < |defaults| && id !in after
    requires FilledUp(key, before, after, defaults[..n])
    requires later == if InUse(key, after, defaults[n]) then after else after[id := defaults[n]]
    ensures NewRowsMissing(key, before, later, defaults[..n + 1])
  {
    var short, long := defaults[..n], defaults[..n + 1];
    forall i | i in later && i !in before
      ensures exists j :: 0 <= j < n + 1 && Missing(key, before, long, j) && later[i] == long[j]
    {
      hide InUse;
      if i in after {
        var j :| 0 <= j < n && Missing(key, before, short, j) && after[i] == short[j];
        MissingLonger(key, before, defaults, n, j);
        assert Missing(key, before, long, j) && later[i] == long[j];
      } else {
        NewestMissing(key, before, after, defaults, n);
        assert later[i] == long[n];
      }
    }
    hide Missing;
    forall i | i in after && !InUse(key, after, defaults[n]) ensures key(after[i]) != key(defaults[n]) {}
  }

  lemma MissingLonger<T(!new)>(key: T -> string, before: map<Id, T>, defaults: seq<T>, n: nat, j: nat)
    requires j < n < |defaults|
    requires Missing(key, before, defaults[..n], j)
    ensures Missing(key, before, defaults[..n + 1], j)
  {
    assert forall m :: 0 <= m <= j ==> defaults[..n][m] == defaults[..n + 1][m];
  }

  lemma NewestMissing<T(!new)>(key: T -> string, before: map<Id, T>, after: map<Id, T>, defaults: seq<T>, n: nat)
    requires n < |defaults| && !InUse(key, after, defaults[n])
    requires FilledUp(key, before, after, defaults[..n])
    ensures Missing(key, before, defaults[..n + 1], n)
  {
    hide NewRowsMissing;
    forall m | 0 <= m < n ensures key(defaults[m]) != key(defaults[n]) {
      assert InUse(key, after, defaults[..n][m]);
      var i :| i in after && key(after[i]) == key(defaults[m]);
    }
    forall i | i in before ensures key(before[i]) != key(defaults[n]) {
      assert i in after && after[i] == before[i];
    }
  }

  function PermissionKey(f: Folding): PermissionData -> string {
    (p: PermissionData) => f.lower(p.code)
  }

  function RoleKey(f: Folding): RoleData -> string {
    (r: RoleData) => f.lower(r.name)
  }

  function TypeKey(f: Folding): TypeData -> string {
    (t: TypeData) => f.upper(t.code)
  }

  // ---------------------------------------------------------------- the phases of a run

  lemma {:induction false} PermissionPhase(f: Folding, db: Db, defaults: Defaults, n: nat)
    requires Valid(db) && n <= |defaults.permissions|
    requires Exec(f, db, PermissionRows(defaults)[..n]).Done?
    ensures var d := Exec(f, db, PermissionRows(defaults)[..n]).db;
            && d == db.(permissions := d.permissions, nextId := d.nextId)
            && FilledUp(PermissionKey(f), db.permissions, d.permissions, defaults.permissions[..n])
  {
    if n > 0 {
      hide FilledUp, Exec, Valid, Grown, Apply;
      var plan := PermissionRows(defaults)[..n];
      assert plan[..n - 1] == PermissionRows(defaults)[..n - 1];
      ExecLast(f, db, plan);
      PermissionPhase(f, db, defaults, n - 1);
      ExecGrows(f, db, plan[..n - 1]);
      var d := Exec(f, db, plan[..n - 1]).db;
      PermissionAdded(f, db, d, defaults.permissions, n - 1);
    }
  }

  lemma PermissionAdded(f: Folding, db: Db, d: Db, defaults: seq<PermissionData>, n: nat)
    requires Valid(d) && n < |defaults| && d == db.(permissions := d.permissions, nextId := d.nextId)
    requires FilledUp(PermissionKey(f), db.permissions, d.permissions, defaults[..n])
    requires Apply(f, d, AddPermission(defaults[n])).Done?
    ensures var later := Apply(f, d, AddPermission(defaults[n])).db;
            && later == db.(permissions := later.permissions, nextId := later.nextId)
            && FilledUp(PermissionKey(f), db.permissions, later.permissions, defaults[..n + 1])
  {
    hide FilledUp, FindPermission;
    PermissionMissing(f, d, defaults[n].code);
    FilledUpStep(PermissionKey(f), db.permissions, d.permissions, defaults, n, d.nextId,
                 Apply(f, d, AddPermission(defaults[n])).db.permissions);
  }

  lemma {:induction false} RolePhase(f: Folding, db: Db, defaults: Defaults, n: nat)
    requires Valid(db) && n <= |defaults.roles|
    requires Exec(f, db, RoleRows(defaults)[..n]).Done?
    ensures var d := Exec(f, db, RoleRows(defaults)[..n]).db;
            && d == db.(roles := d.roles, nextId := d.nextId)
            && FilledUp(RoleKey(f), db.roles, d.roles, defaults.roles[..n])
  {
    if n > 0 {
      hide FilledUp, Exec, Valid, Grown, Apply;
      var plan := RoleRows(defaults)[..n];
      assert plan[..n - 1] == RoleRows(defaults)[..n - 1];
      ExecLast(f, db, plan);
      RolePhase(f, db, defaults, n - 1);
      ExecGrows(f, db, plan[..n - 1]);
      var d := Exec(f, db, plan[..n - 1]).db;
      RoleAdded(f, db, d, defaults.roles, n - 1);
    }
  }

  lemma RoleAdded(f: Folding, db: Db, d: Db, defaults: seq<RoleData>, n: nat)
    requires Valid(d) && n < |defaults| && d == db.(roles := d.roles, nextId := d.nextId)
    requires FilledUp(RoleKey(f), db.roles, d.roles, defaults[..n])
    ensures var later := Apply(f, d, AddRole(defaults[n])).db;
            && later == db.(roles := later.roles, nextId := later.nextId)
            && FilledUp(RoleKey(f), db.roles, later.roles, defaults[..n + 1])
  {
    hide FilledUp, FindRole;
    RoleMissing(f, d, defaults[n].name);
    FilledUpStep(RoleKey(f), db.roles, d.roles, defaults, n, d.nextId,
                 Apply(f, d, AddRole(defaults[n])).db.roles);
  }

  lemma {:induction false} TypePhase(f: Folding, db: Db, defaults: Defaults, n: nat)
    requires Valid(db) && n <= |defaults.types|
    requires Exec(f, db, TypeRows(defaults)[..n]).Done?
    ensures var d := Exec(f, db, TypeRows(defaults)[..n]).db;
            && d == db.(types := d.types, nextId := d.nextId)
            && FilledUp(TypeKey(f), db.types, d.types, defaults.types[..n])
  {
    if n > 0 {
      hide FilledUp, Exec, Valid, Grown, Apply;
      var plan := TypeRows(defaults)[..n];
      assert plan[..n - 1] == TypeRows(defaults)[..n - 1];
      ExecLast(f, db, plan);
      TypePhase(f, db, defaults, n - 1);
      ExecGrows(f, db, plan[..n - 1]);
      var d := Exec(f, db, plan[..n - 1]).db;
      TypeAdded(f, db, d, defaults.types, n - 1);
    }
  }

  lemma TypeAdded(f: Folding, db: Db, d: Db, defaults: seq<TypeData>, n: nat)
    requires Valid(d) && n < |defaults| && d == db.(types := d.types, nextId := d.nextId)
    requires FilledUp(TypeKey(f), db.types, d.types, defaults[..n])
    ensures var later := Apply(f, d, AddType(defaults[n])).db;
            && later == db.(types := later.types, nextId := later.nextId)
            && FilledUp(TypeKey(f), db.types, later.types, defaults[..n + 1])
  {
    hide FilledUp, FindType;
    TypeMissing(f, d, defaults[n].code);
    FilledUpStep(TypeKey(f), db.types, d.types, defaults, n, d.nextId,
                 Apply(f, d, AddType(defaults[n])).db.types);
  }

  lemma {:induction false} GrantPhase(f: Folding, db: Db, plan: seq<Commit>)
    requires forall c :: c in plan ==> c.AddGrant?
    ensures Exec(f, db, plan).Done?
    ensures Exec(f, db, plan).db == db.(grants := Exec(f, db, plan).db.grants)
  {
    if |plan| > 0 {
      hide FindRole, FindPermission;
      GrantPhase(f, db, plan[..|plan| - 1]);
      assert plan[|plan| - 1] in plan;
    }
  }

  /** The run up to the admin. */
  function BeforeAdmin(defaults: Defaults): seq<Commit> {
    Rows(defaults) + AllGrants(defaults, |defaults.permissions|)
  }

  lemma AdminIsLast(f: Folding, db: Db, defaults: Defaults)
    requires Exec(f, db, Plan(defaults)).Done?
    ensures Exec(f, db, BeforeAdmin(defaults)).Done?
    ensures Exec(f, db, Plan(defaults))
         == Apply(f, Exec(f, db, BeforeAdmin(defaults)).db, AddAdmin(HasRole(defaults, SUPER_ADMIN)))
  {
    hide Exec, Apply, Rows, AllGrants, HasRole;
    var plan := Plan(defaults);
    assert plan[..|plan| - 1] == BeforeAdmin(defaults);
    ExecLast(f, db, plan);
  }

  lemma TablesBeforeAdmin(f: Folding, db: Db, defaults: Defaults)
    requires Valid(db) && Exec(f, db, BeforeAdmin(defaults)).Done?
    ensures var d := Exec(f, db, BeforeAdmin(defaults)).db;
            && d.users == db.users && d.userRoles == db.userRoles
            && FilledUp(PermissionKey(f), db.permissions, d.permissions, defaults.permissions)
            && FilledUp(RoleKey(f), db.roles, d.roles, defaults.roles)
            && FilledUp(TypeKey(f), db.types, d.types, defaults.types)
  {
    hide Exec, Valid, Grown, FilledUp, AllGrants, Selects, HasRole;
    var ps, rs, ts := PermissionRows(defaults), RoleRows(defaults), TypeRows(defaults);
    var gs := AllGrants(defaults, |defaults.permissions|);
    assert ps[..|ps|] == ps && rs[..|rs|] == rs && ts[..|ts|] == ts;
    assert defaults.permissions[..|ps|] == defaults.permissions;
    assert defaults.roles[..|rs|] == defaults.roles && defaults.types[..|ts|] == defaults.types;
    ExecConcat(f, db, ps + rs + ts, gs);
    ExecConcat(f, db, ps + rs, ts);
    ExecConcat(f, db, ps, rs);
    var d1 := Exec(f, db, ps).db;
    PermissionPhase(f, db, defaults, |ps|);
    ExecGrows(f, db, ps);
    var d2 := Exec(f, d1, rs).db;
    RolePhase(f, d1, defaults, |rs|);
    ExecGrows(f, d1, rs);
    TypePhase(f, d2, defaults, |ts|);
    forall c | c in gs ensures c.AddGrant? {
      AllGrantsExactly(defaults, |defaults.permissions|, c);
    }
    GrantPhase(f, Exec(f, d2, ts).db, gs);
  }

  // ---------------------------------------------------------------- the whole run

  /** Permissions, roles and transaction types are filled up with the defaults. */
  ghost predicate RowsSeeded(f: Folding, db: Db, d: Db, defaults: Defaults) {
    && FilledUp(PermissionKey(f), db.permissions, d.permissions, defaults.permissions)
    && FilledUp(RoleKey(f), db.roles, d.roles, defaults.roles)
    && FilledUp(TypeKey(f), db.types, d.types, defaults.types)
  }

  /** If nobody has the admin's e-mail there is exactly one new user, with the super-admin role when this is
      among the defaults; otherwise the users and their roles are what they were. */
  ghost predicate AdminSeeded(f: Folding, db: Db, d: Db, defaults: Defaults) {
    if exists i :: i in db.users && f.lower(db.users[i].email) == f.lower("admin@apnaerp.com") then
      d.users == db.users && d.userRoles == db.userRoles
    else
      exists u :: && u !in db.users
                  && d.users == db.users[u := UserData("admin@apnaerp.com", "admin", true)]
                  && AdminRole(f, db, d, defaults, u)
  }

  ghost predicate AdminRole(f: Folding, db: Db, d: Db, defaults: Defaults, u: Id) {
    if exists j :: 0 <= j < |defaults.roles| && defaults.roles[j].name == "Super Admin" then
      && FindRole(f, d, "Super Admin").Some?
      && d.userRoles == db.userRoles + {(u, FindRole(f, d, "Super Admin").value)}
    else
      d.userRoles == db.userRoles
  }

  /** What a finished run leaves, table by table. */
  ghost predicate Seeded(f: Folding, db: Db, d: Db, defaults: Defaults) {
    && RowsSeeded(f, db, d, defaults)
    && (forall pair :: pair in d.grants <==> pair in db.grants || SelectedPair(f, d, defaults, pair))
    && AdminSeeded(f, db, d, defaults)
  }

  /** A run that gets through leaves exactly the seeded tables. */
  lemma SeededExactly(f: Folding, db: Db, defaults: Defaults)
    requires Valid(db) && Exec(f, db, Plan(defaults)).Done?
    ensures Seeded(f, db, Exec(f, db, Plan(defaults)).db, defaults)
  {
    hide Exec, Plan, Valid, FilledUp, SelectedPair, AdminSeeded, FindRole, FindUser, FindPermission, HasRole;
    var d := Exec(f, db, Plan(defaults)).db;
    AdminIsLast(f, db, defaults);
    TablesBeforeAdmin(f, db, defaults);
    AdminIsSeeded(f, db, defaults);
    forall pair ensures pair in d.grants <==> pair in db.grants || SelectedPair(f, d, defaults, pair) {
      SeededGrants(f, db, defaults, pair);
    }
  }

  /** What a run leaves that a uniqueness violation has ended: the permissions before the one that clashed and
      nothing else, or, when it was the admin's user name that clashed, everything but the admin. */
  ghost predicate CutOff(f: Folding, db: Db, d: Db, defaults: Defaults) {
    || (exists n :: 0 <= n < |defaults.permissions| && StoppedAt(f, db, d, defaults, n))
    || (&& RowsSeeded(f, db, d, defaults)
        && (forall pair :: pair in d.grants <==> pair in db.grants || SelectedPair(f, d, defaults, pair))
        && d.users == db.users && d.userRoles == db.userRoles
        && (exists i :: i in db.users && db.users[i].username == "admin")
        && (forall i :: i in db.users ==> f.lower(db.users[i].email) != f.lower("admin@apnaerp.com")))
  }

  ghost predicate StoppedAt(f: Folding, db: Db, d: Db, defaults: Defaults, n: nat)
    requires n < |defaults.permissions|
  {
    && d == db.(permissions := d.permissions, nextId := d.nextId)
    && FilledUp(PermissionKey(f), db.permissions, d.permissions, defaults.permissions[..n])
    && (forall i :: i in d.permissions ==> f.lower(d.permissions[i].code) != f.lower(defaults.permissions[n].code))
    && (exists i :: i in d.permissions && d.permissions[i].name == defaults.permissions[n].name)
  }

  /** A run that does not get through has been cut off in one of these two ways. */
  lemma AbortedExactly(f: Folding, db: Db, defaults: Defaults)
    requires Valid(db) && Exec(f, db, Plan(defaults)).Aborted?
    ensures CutOff(f, db, Exec(f, db, Plan(defaults)).db, defaults)
  {
    hide Exec, Plan, Valid, FilledUp, StoppedAt, RowsSeeded, SelectedPair, FindUser;
    var ps := PermissionRows(defaults);
    assert ps[..|ps|] == ps;
    AfterPermissions(f, db, defaults);
    if Exec(f, db, ps).Aborted? {
      var n := FirstClash(f, db, defaults, |ps|);
    } else {
      assert Exec(f, db, BeforeAdmin(defaults)).Done?;
      AdminClashes(f, db, defaults);
    }
  }

  /** Only the permissions and the admin can clash. */
  lemma AfterPermissions(f: Folding, db: Db, defaults: Defaults)
    ensures Exec(f, db, PermissionRows(defaults)).Aborted? ==>
              Exec(f, db, Plan(defaults)) == Exec(f, db, PermissionRows(defaults))
    ensures Exec(f, db, PermissionRows(defaults)).Done? ==> Exec(f, db, BeforeAdmin(defaults)).Done?
  {
    hide Exec, AllGrants, HasRole, Selects;
    var ps, last := PermissionRows(defaults), [AddAdmin(HasRole(defaults, SUPER_ADMIN))];
    var others := RoleRows(defaults) + TypeRows(defaults) + AllGrants(defaults, |defaults.permissions|);
    assert BeforeAdmin(defaults) == ps + others && Plan(defaults) == ps + (others + last);
    ExecConcat(f, db, ps, others);
    ExecConcat(f, db, ps, others + last);
    forall c | c in others ensures !c.AddPermission? && !c.AddAdmin? {
      AllGrantsExactly(defaults, |defaults.permissions|, c);
    }
    NeverClashes(f, Exec(f, db, ps).db, others);
  }

  lemma {:induction false} NeverClashes(f: Folding, db: Db, plan: seq<Commit>)
    requires forall c :: c in plan ==> !c.AddPermission? && !c.AddAdmin?
    ensures Exec(f, db, plan).Done?
  {
    if |plan| > 0 {
      NeverClashes(f, db, plan[..|plan| - 1]);
      assert plan[|plan| - 1] in plan;
    }
  }

  lemma {:induction false} FirstClash(f: Folding, db: Db, defaults: Defaults, k: nat) returns (n: nat)
    requires Valid(db) && k <= |defaults.permissions|
    requires Exec(f, db, PermissionRows(defaults)[..k]).Aborted?
    ensures n < k && StoppedAt(f, db, Exec(f, db, PermissionRows(defaults)[..k]).db, defaults, n)
  {
    hide Exec, Apply, Valid, FilledUp, StoppedAt;
    var plan := PermissionRows(defaults)[..k];
    SettledPlanDoesNothing(f, db, []);
    assert PermissionRows(defaults)[..0] == [];
    if k > 0 {
      assert plan[..k - 1] == PermissionRows(defaults)[..k - 1];
      ExecLast(f, db, plan);
      if Exec(f, db, plan[..k - 1]).Aborted? {
        n := FirstClash(f, db, defaults, k - 1);
      } else {
        n := k - 1;
        PermissionPhase(f, db, defaults, n);
        ExecGrows(f, db, plan[..n]);
        ClashStops(f, db, Exec(f, db, plan[..n]).db, defaults, n);
      }
    }
  }

  lemma ClashStops(f: Folding, db: Db, d: Db, defaults: Defaults, n: nat)
    requires Valid(d) && n < |defaults.permissions|
    requires d == db.(permissions := d.permissions, nextId := d.nextId)
    requires FilledUp(PermissionKey(f), db.permissions, d.permissions, defaults.permissions[..n])
    requires Apply(f, d, AddPermission(defaults.permissions[n])).Aborted?
    ensures StoppedAt(f, db, Apply(f, d, AddPermission(defaults.permissions[n])).db, defaults, n)
  {
    hide FilledUp, FindPermission;
    PermissionMissing(f, d, defaults.permissions[n].code);
  }

  lemma AdminClashes(f: Folding, db: Db, defaults: Defaults)
    requires Valid(db) && Exec(f, db, BeforeAdmin(defaults)).Done? && Exec(f, db, Plan(defaults)).Aborted?
    ensures CutOff(f, db, Exec(f, db, Plan(defaults)).db, defaults)
  {
    hide Exec, Valid, Grown, FilledUp, SelectedPair, StoppedAt, FindUser, Rows, AllGrants, HasRole;
    var plan := Plan(defaults);
    var d := Exec(f, db, BeforeAdmin(defaults)).db;
    assert plan[..|plan| - 1] == BeforeAdmin(defaults);
    ExecLast(f, db, plan);
    TablesBeforeAdmin(f, db, defaults);
    ExecGrows(f, db, BeforeAdmin(defaults));
    UserMissing(f, d, ADMIN_EMAIL);
    assert Exec(f, db, plan).db == d && FindUser(f, d, ADMIN_EMAIL).None? && UsernameTaken(d, ADMIN_USERNAME);
    forall pair ensures pair in d.grants <==> pair in db.grants || SelectedPair(f, d, defaults, pair) {
      GrantsBeforeAdmin(f, db, defaults, pair);
    }
  }

  lemma GrantsBeforeAdmin(f: Folding, db: Db, defaults: Defaults, pair: (Id, Id))
    requires Valid(db) && Exec(f, db, BeforeAdmin(defaults)).Done?
    ensures var d := Exec(f, db, BeforeAdmin(defaults)).db;
            pair in d.grants <==> pair in db.grants || SelectedPair(f, d, defaults, pair)
  {
    hide Exec, Valid, SelectedPair, Rows, AllGrants, HasRole, FindRole, FindPermission;
    var plan, n := Plan(defaults), |Plan(defaults)| - 1;
    var d := Exec(f, db, BeforeAdmin(defaults)).db;
    assert plan[..n] == BeforeAdmin(defaults);
    PlanOrdered(defaults);
    OrderedPrefix(plan, n);
    GrantsExactly(f, db, BeforeAdmin(defaults), pair);
    GrantedAsSelected(f, d, defaults, pair);
    assert GrantedBy(f, d, plan, pair) <==> GrantedBy(f, d, plan[..n], pair) by {
      assert forall i :: 0 <= i < n ==> plan[..n][i] == plan[i];
    }
  }

  lemma AdminIsSeeded(f: Folding, db: Db, defaults: Defaults)
    requires Valid(db) && Exec(f, db, Plan(defaults)).Done?
    ensures AdminSeeded(f, db, Exec(f, db, Plan(defaults)).db, defaults)
  {
    hide Exec, Plan, BeforeAdmin, Valid, Grown, FilledUp, FindRole, FindUser;
    AdminIsLast(f, db, defaults);
    TablesBeforeAdmin(f, db, defaults);
    ExecGrows(f, db, BeforeAdmin(defaults));
    var d0, d := Exec(f, db, BeforeAdmin(defaults)).db, Exec(f, db, Plan(defaults)).db;
    UserMissing(f, d0, ADMIN_EMAIL);
    if FindUser(f, d0, ADMIN_EMAIL).None? {
      var u := d0.nextId;
      assert u !in db.users by { NewIdFree(d0); }
      SuperAdminFound(f, db, d0, defaults);
      ApplyGrows(f, d0, AddAdmin(HasRole(defaults, SUPER_ADMIN)));
      FindStable(f, d0, d, SUPER_ADMIN);
      assert AdminRole(f, db, d, defaults, u);
    }
  }

  lemma NewIdFree(db: Db)
    requires Valid(db)
    ensures db.nextId !in db.users
  {
  }

  lemma SuperAdminFound(f: Folding, db: Db, d: Db, defaults: Defaults)
    requires Valid(d) && FilledUp(RoleKey(f), db.roles, d.roles, defaults.roles)
    ensures HasRole(defaults, SUPER_ADMIN) ==> FindRole(f, d, SUPER_ADMIN).Some?
  {
    hide FindRole, Valid;
    RoleMissing(f, d, SUPER_ADMIN);
    if j :| 0 <= j < |defaults.roles| && defaults.roles[j].name == SUPER_ADMIN {
      assert InUse(RoleKey(f), d.roles, defaults.roles[j]);
    }
  }
}
