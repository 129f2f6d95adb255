/** Convergence of the seeding run: what it adds, when it succeeds, and why it may be repeated or
    interrupted. */
module SeedingTheorems {
  import opened RbacSeeder
  import opened Wrappers

  // ---------------------------------------------------------------- growth

  ghost predicate Valid(db: Db) {
    && (forall i :: i in db.permissions ==> i < db.nextId)
    && (forall i :: i in db.roles ==> i < db.nextId)
    && (forall i :: i in db.types ==> i < db.nextId)
    && (forall i :: i in db.users ==> i < db.nextId)
  }

  /** No old row of a table is removed or changed, and none appears among the old identifiers. */
  ghost predicate TableGrown<T>(before: map<Id, T>, after: map<Id, T>, limit: Id) {
    forall i :: i < limit ==> (i in before <==> i in after) && (i in before ==> before[i] == after[i])
  }

  ghost predicate Grown(db: Db, d: Db) {
    && db.nextId <= d.nextId
    && TableGrown(db.permissions, d.permissions, db.nextId)
    && TableGrown(db.roles, d.roles, db.nextId)
    && TableGrown(db.types, d.types, db.nextId)
    && TableGrown(db.users, d.users, db.nextId)
    && db.grants <= d.grants && db.userRoles <= d.userRoles
  }

  lemma ApplyGrows(f: Folding, db: Db, c: Commit)
    requires Valid(db)
    ensures Valid(Apply(f, db, c).db) && Grown(db, Apply(f, db, c).db)
  {
    hide FindPermission, FindRole, FindType, FindUser, NameTaken, UsernameTaken, TableGrown;
    TableUnchanged(db.permissions, db.nextId);
    TableUnchanged(db.roles, db.nextId);
    TableUnchanged(db.types, db.nextId);
    TableUnchanged(db.users, db.nextId);
    match c
    case AddPermission(p) => RowAdded(db.permissions, db.nextId, p);
    case AddRole(r) => RowAdded(db.roles, db.nextId, r);
    case AddType(t) => RowAdded(db.types, db.nextId, t);
    case AddGrant(_, _) =>
    case AddAdmin(_) => RowAdded(db.users, db.nextId, UserData(ADMIN_EMAIL, ADMIN_USERNAME, true));
  }

  lemma TableUnchanged<T>(table: map<Id, T>, limit: Id)
    ensures TableGrown(table, table, limit)
  {
  }

  lemma RowAdded<T>(table: map<Id, T>, id: Id, row: T)
    ensures TableGrown(table, table[id := row], id)
  {
  }

  lemma ExecLast(f: Folding, db: Db, plan: seq<Commit>)
    requires |plan| > 0
    ensures var before := Exec(f, db, plan[..|plan| - 1]);
            Exec(f, db, plan) == if before.Done? then Apply(f, before.db, plan[|plan| - 1]) else before
  {
  }

  lemma GrownTransitive(a: Db, b: Db, c: Db)
    requires Grown(a, b) && Grown(b, c)
    ensures Grown(a, c)
  {
  }

  lemma {:induction false} ExecGrows(f: Folding, db: Db, plan: seq<Commit>)
    requires Valid(db)
    ensures Valid(Exec(f, db, plan).db) && Grown(db, Exec(f, db, plan).db)
  {
    if |plan| > 0 {
      hide Valid, Grown, Apply;
      var init := plan[..|plan| - 1];
      ExecGrows(f, db, init);
      if Exec(f, db, init).Done? {
        var d := Exec(f, db, init).db;
        ApplyGrows(f, d, plan[|plan| - 1]);
        GrownTransitive(db, d, Exec(f, db, plan).db);
      }
    }
  }

  lemma {:induction false} FirstStable(column: map<Id, string>, later: map<Id, string>, key: string, n: nat, n': nat)
    requires n <= n' && TableGrown(column, later, n)
    requires First(column, key, n).Some?
    ensures First(later, key, n') == First(column, key, n)
    decreases n'
  {
    if n < n' {
      FirstStable(column, later, key, n, n' - 1);
    } else if First(column, key, n - 1).Some? {
      FirstStable(column, later, key, n - 1, n - 1);
    }
  }

  lemma FindStable(f: Folding, db: Db, d: Db, key: string)
    requires Grown(db, d)
    ensures FindPermission(f, db, key).Some? ==> FindPermission(f, d, key) == FindPermission(f, db, key)
    ensures FindRole(f, db, key).Some? ==> FindRole(f, d, key) == FindRole(f, db, key)
    ensures FindType(f, db, key).Some? ==> FindType(f, d, key) == FindType(f, db, key)
    ensures FindUser(f, db, key).Some? ==> FindUser(f, d, key) == FindUser(f, db, key)
  {
    hide First;
    if FindPermission(f, db, key).Some? {
      FirstStable(Codes(f, db), Codes(f, d), f.lower(key), db.nextId, d.nextId);
    }
    if FindRole(f, db, key).Some? {
      FirstStable(RoleNames(f, db), RoleNames(f, d), f.lower(key), db.nextId, d.nextId);
    }
    if FindType(f, db, key).Some? {
      FirstStable(TypeCodes(f, db), TypeCodes(f, d), f.upper(key), db.nextId, d.nextId);
    }
    if FindUser(f, db, key).Some? {
      FirstStable(Emails(f, db), Emails(f, d), f.lower(key), db.nextId, d.nextId);
    }
  }

  // ---------------------------------------------------------------- settled commits

  /** The commit has nothing left to do. */
  ghost predicate Settled(f: Folding, db: Db, c: Commit) {
    match c
    case AddPermission(p) => FindPermission(f, db, p.code).Some?
    case AddRole(r) => FindRole(f, db, r.name).Some?
    case AddType(t) => FindType(f, db, t.code).Some?
    case AddGrant(name, code) =>
      var role, permission := FindRole(f, db, name), FindPermission(f, db, code);
      role.Some? && permission.Some? && (role.value, permission.value) in db.grants
    case AddAdmin(_) => FindUser(f, db, ADMIN_EMAIL).Some?
  }

  lemma SettledStays(f: Folding, db: Db, d: Db, c: Commit)
    requires Grown(db, d) && Settled(f, db, c)
    ensures Settled(f, d, c)
  {
    hide FindPermission, FindRole, FindType, FindUser;
    match c
    case AddPermission(p) => FindStable(f, db, d, p.code);
    case AddRole(r) => FindStable(f, db, d, r.name);
    case AddType(t) => FindStable(f, db, d, t.code);
    case AddGrant(name, code) =>
      FindStable(f, db, d, name);
      FindStable(f, db, d, code);
    case AddAdmin(_) => FindStable(f, db, d, ADMIN_EMAIL);
  }

  lemma SettledDoesNothing(f: Folding, db: Db, c: Commit)
    requires Settled(f, db, c)
    ensures Apply(f, db, c) == Done(db)
  {
    hide FindPermission, FindRole, FindType, FindUser;
    if c.AddGrant? {
      var pair := (FindRole(f, db, c.roleName).value, FindPermission(f, db, c.code).value);
      assert db.grants + {pair} == db.grants;
    }
  }

  lemma ApplySettles(f: Folding, db: Db, c: Commit)
    requires Valid(db) && Apply(f, db, c).Done?
    requires c.AddGrant? ==> FindRole(f, db, c.roleName).Some? && FindPermission(f, db, c.code).Some?
    ensures Settled(f, Apply(f, db, c).db, c)
  {
    hide First;
    var d := Apply(f, db, c).db;
    match c
    case AddPermission(p) =>
      if FindPermission(f, db, p.code).None? {
        assert db.nextId in Codes(f, d);
      }
    case AddRole(r) =>
      if FindRole(f, db, r.name).None? {
        assert db.nextId in RoleNames(f, d);
      }
    case AddType(t) =>
      if FindType(f, db, t.code).None? {
        assert db.nextId in TypeCodes(f, d);
      }
    case AddGrant(name, code) =>
    case AddAdmin(_) =>
      if FindUser(f, db, ADMIN_EMAIL).None? {
        assert db.nextId in Emails(f, d);
      }
  }

  ghost predicate AllSettled(f: Folding, db: Db, plan: seq<Commit>) {
    forall i :: 0 <= i < |plan| ==> Settled(f, db, plan[i])
  }

  /** Every grant comes after its role and its permission. */
  ghost predicate Ordered(plan: seq<Commit>) {
    forall n :: 0 <= n < |plan| && plan[n].AddGrant? ==>
      && (exists i :: 0 <= i < n && plan[i].AddRole? && plan[i].role.name == plan[n].roleName)
      && (exists i :: 0 <= i < n && plan[i].AddPermission? && plan[i].permission.code == plan[n].code)
  }

  lemma OrderedPrefix(plan: seq<Commit>, n: nat)
    requires Ordered(plan) && n <= |plan|
    ensures Ordered(plan[..n])
  {
    var short := plan[..n];
    forall m | 0 <= m < n && short[m].AddGrant?
      ensures exists i :: 0 <= i < m && short[i].AddRole? && short[i].role.name == short[m].roleName
      ensures exists i :: 0 <= i < m && short[i].AddPermission? && short[i].permission.code == short[m].code
    {
      assert plan[m] == short[m];
      var i :| 0 <= i < m && plan[i].AddRole? && plan[i].role.name == plan[m].roleName;
      assert short[i] == plan[i];
      var j :| 0 <= j < m && plan[j].AddPermission? && plan[j].permission.code == plan[m].code;
      assert short[j] == plan[j];
    }
  }

  lemma {:induction false} ExecSettles(f: Folding, db: Db, plan: seq<Commit>)
    requires Valid(db) && Ordered(plan) && Exec(f, db, plan).Done?
    ensures AllSettled(f, Exec(f, db, plan).db, plan)
  {
    if |plan| > 0 {
      hide Valid, Grown, Apply, Exec, Settled, Ordered, AllSettled, FindRole, FindPermission;
      var n := |plan| - 1;
      ExecLast(f, db, plan);
      OrderedPrefix(plan, n);
      var d, d' := Exec(f, db, plan[..n]).db, Exec(f, db, plan).db;
      ExecSettles(f, db, plan[..n]);
      ExecGrows(f, db, plan[..n]);
      ApplyGrows(f, d, plan[n]);
      GrantTargetsFound(f, d, plan);
      ApplySettles(f, d, plan[n]);
      SettledExtends(f, d, d', plan);
    }
  }

  lemma SettledExtends(f: Folding, d: Db, d': Db, plan: seq<Commit>)
    requires |plan| > 0 && Grown(d, d') && AllSettled(f, d, plan[..|plan| - 1])
    requires Settled(f, d', plan[|plan| - 1])
    ensures AllSettled(f, d', plan)
  {
    hide Grown, Settled;
    var init := plan[..|plan| - 1];
    forall i | 0 <= i < |plan| ensures Settled(f, d', plan[i]) {
      if i < |plan| - 1 {
        assert Settled(f, d, init[i]);
        SettledStays(f, d, d', init[i]);
      }
    }
  }

  lemma GrantTargetsFound(f: Folding, d: Db, plan: seq<Commit>)
    requires |plan| > 0 && Ordered(plan) && AllSettled(f, d, plan[..|plan| - 1])
    ensures var c := plan[|plan| - 1];
            c.AddGrant? ==> FindRole(f, d, c.roleName).Some? && FindPermission(f, d, c.code).Some?
  {
    hide FindRole, FindPermission;
    var n := |plan| - 1;
    if plan[n].AddGrant? {
      var i :| 0 <= i < n && plan[i].AddRole? && plan[i].role.name == plan[n].roleName;
      var j :| 0 <= j < n && plan[j].AddPermission? && plan[j].permission.code == plan[n].code;
      assert Settled(f, d, plan[..n][i]) && Settled(f, d, plan[..n][j]);
    }
  }

  lemma {:induction false} SettledPlanDoesNothing(f: Folding, db: Db, plan: seq<Commit>)
    requires AllSettled(f, db, plan)
    ensures Exec(f, db, plan) == Done(db)
  {
    if |plan| > 0 {
      hide Settled, Apply;
      SettledPlanDoesNothing(f, db, plan[..|plan| - 1]);
      SettledDoesNothing(f, db, plan[|plan| - 1]);
    }
  }

  lemma {:induction false} ExecConcat(f: Folding, db: Db, first: seq<Commit>, second: seq<Commit>)
    ensures Exec(f, db, first + second)
         == match Exec(f, db, first) case Done(d) => Exec(f, d, second) case Aborted(d) => Aborted(d)
    decreases |second|
  {
    hide Apply;
    if |second| == 0 {
      assert first + second == first;
    } else {
      var init := second[..|second| - 1];
      assert (first + second)[..|first + second| - 1] == first + init;
      ExecConcat(f, db, first, init);
    }
  }

  // ---------------------------------------------------------------- the plan of a run

  lemma {:induction false} GrantsOfExactly(defaults: Defaults, code: string, n: nat, c: Commit)
    requires n <= |RULED_ROLES|
    ensures c in GrantsOf(defaults, code, n)
            <==> c.AddGrant? && c.code == code && c.roleName in RULED_ROLES[..n]
                 && HasRole(defaults, c.roleName) && Selects(c.roleName, code)
  {
    hide HasRole, Selects;
    if n > 0 {
      GrantsOfExactly(defaults, code, n - 1, c);
      assert RULED_ROLES[..n] == RULED_ROLES[..n - 1] + [RULED_ROLES[n - 1]];
    }
  }

  /** The grants a full run makes: the pairs the role rules select. */
  ghost predicate Planned(defaults: Defaults, role: string, code: string) {
    && role in RULED_ROLES && HasRole(defaults, role) && Selects(role, code)
    && exists i :: 0 <= i < |defaults.permissions| && defaults.permissions[i].code == code
  }

  lemma {:induction false} AllGrantsExactly(defaults: Defaults, n: nat, c: Commit)
    requires n <= |defaults.permissions|
    ensures c in AllGrants(defaults, n)
            <==> c.AddGrant? && c.roleName in RULED_ROLES && HasRole(defaults, c.roleName)
                 && Selects(c.roleName, c.code)
                 && exists i :: 0 <= i < n && defaults.permissions[i].code == c.code
  {
    hide HasRole, Selects, GrantsOf;
    if n > 0 {
      AllGrantsExactly(defaults, n - 1, c);
      GrantsOfExactly(defaults, defaults.permissions[n - 1].code, |RULED_ROLES|, c);
      assert RULED_ROLES[..|RULED_ROLES|] == RULED_ROLES;
    }
  }

  lemma PlanOrdered(defaults: Defaults)
    ensures Ordered(Plan(defaults))
  {
    hide Selects, GrantsOf, AllGrants;
    var rows, plan := Rows(defaults), Plan(defaults);
    forall n | 0 <= n < |plan| && plan[n].AddGrant?
      ensures exists i :: 0 <= i < n && plan[i].AddRole? && plan[i].role.name == plan[n].roleName
      ensures exists i :: 0 <= i < n && plan[i].AddPermission? && plan[i].permission.code == plan[n].code
    {
      assert n >= |rows|;
      assert plan[n] in AllGrants(defaults, |defaults.permissions|);
      AllGrantsExactly(defaults, |defaults.permissions|, plan[n]);
      var r :| 0 <= r < |defaults.roles| && defaults.roles[r].name == plan[n].roleName;
      assert plan[|defaults.permissions| + r] == AddRole(defaults.roles[r]);
      var p :| 0 <= p < |defaults.permissions| && defaults.permissions[p].code == plan[n].code;
      assert plan[p] == AddPermission(defaults.permissions[p]);
    }
  }

  /** Running the seeder a second time changes nothing. */
  lemma SeedingTwice(f: Folding, db: Db, defaults: Defaults)
    requires Valid(db) && Exec(f, db, Plan(defaults)).Done?
    ensures var d := Exec(f, db, Plan(defaults)).db;
            Exec(f, d, Plan(defaults)) == Done(d)
  {
    hide Plan, Exec, Valid, AllSettled, Ordered;
    PlanOrdered(defaults);
    ExecSettles(f, db, Plan(defaults));
    SettledPlanDoesNothing(f, Exec(f, db, Plan(defaults)).db, Plan(defaults));
  }

  /** A run that was cut off after any number of commits, followed by a full run, ends exactly where
      an uninterrupted run ends. */
  lemma SeedingAfterInterruption(f: Folding, db: Db, defaults: Defaults, n: nat)
    requires Valid(db) && n <= |Plan(defaults)|
    requires Exec(f, db, Plan(defaults)[..n]).Done?
    ensures Exec(f, Exec(f, db, Plan(defaults)[..n]).db, Plan(defaults)) == Exec(f, db, Plan(defaults))
  {
    hide Plan, Exec, Valid, AllSettled, Ordered;
    var plan := Plan(defaults);
    var done, rest := plan[..n], plan[n..];
    assert plan == done + rest;
    PlanOrdered(defaults);
    OrderedPrefix(plan, n);
    ExecSettles(f, db, done);
    var d := Exec(f, db, done).db;
    SettledPlanDoesNothing(f, d, done);
    ExecConcat(f, d, done, rest);
    ExecConcat(f, db, done, rest);
  }

  // ---------------------------------------------------------------- what a run adds

  /** The pairs a plan grants, read off in a later database. */
  ghost predicate GrantedBy(f: Folding, d: Db, plan: seq<Commit>, pair: (Id, Id)) {
    exists i :: 0 <= i < |plan| && plan[i].AddGrant?
      && FindRole(f, d, plan[i].roleName) == Some(pair.0)
      && FindPermission(f, d, plan[i].code) == Some(pair.1)
  }

  lemma {:induction false} GrantsExactly(f: Folding, db: Db, plan: seq<Commit>, pair: (Id, Id))
    requires Valid(db) && Ordered(plan) && Exec(f, db, plan).Done?
    ensures var d := Exec(f, db, plan).db;
            pair in d.grants <==> pair in db.grants || GrantedBy(f, d, plan, pair)
  {
    if |plan| > 0 {
      hide Valid, Grown, Settled, Ordered, FindRole, FindPermission, GrantedBy, Exec, Apply, AllSettled;
      var n := |plan| - 1;
      ExecLast(f, db, plan);
      var init := plan[..n];
      var d, d' := Exec(f, db, init).db, Exec(f, db, plan).db;
      assert Ordered(init) by { OrderedPrefix(plan, n); }
      GrantsExactly(f, db, init, pair);
      assert Grown(d, d') by {
        ExecGrows(f, db, init);
        ApplyGrows(f, d, plan[n]);
      }
      assert AllSettled(f, d, init) by { ExecSettles(f, db, init); }
      GrantTargetsFound(f, d, plan);
      ApplyGrants(f, d, plan[n], pair);
      GrantedByGrown(f, d, d', plan, pair);
    } else {
      assert Exec(f, db, plan).db == db;
    }
  }

  lemma ApplyGrants(f: Folding, db: Db, c: Commit, pair: (Id, Id))
    ensures pair in Apply(f, db, c).db.grants
            <==> || pair in db.grants
                 || (c.AddGrant? && FindRole(f, db, c.roleName) == Some(pair.0)
                     && FindPermission(f, db, c.code) == Some(pair.1))
  {
    hide FindPermission, FindRole, FindType, FindUser, NameTaken, UsernameTaken;
  }

  lemma GrantedByGrown(f: Folding, d: Db, d': Db, plan: seq<Commit>, pair: (Id, Id))
    requires |plan| > 0 && Grown(d, d') && AllSettled(f, d, plan[..|plan| - 1])
    requires var c := plan[|plan| - 1];
             c.AddGrant? ==> FindRole(f, d, c.roleName).Some? && FindPermission(f, d, c.code).Some?
    ensures GrantedBy(f, d', plan, pair)
            <==> GrantedBy(f, d, plan[..|plan| - 1], pair)
                 || (var c := plan[|plan| - 1];
                     c.AddGrant? && FindRole(f, d, c.roleName) == Some(pair.0)
                     && FindPermission(f, d, c.code) == Some(pair.1))
  {
    hide FindRole, FindPermission, FindType, FindUser, Grown;
    var n := |plan| - 1;
    var init := plan[..n];
    forall i | 0 <= i < |plan| && plan[i].AddGrant?
      ensures FindRole(f, d', plan[i].roleName) == FindRole(f, d, plan[i].roleName)
      ensures FindPermission(f, d', plan[i].code) == FindPermission(f, d, plan[i].code)
    {
      assert i < n ==> Settled(f, d, init[i]);
      FindStable(f, d, d', plan[i].roleName);
      FindStable(f, d, d', plan[i].code);
    }
    assert forall i :: 0 <= i < n ==> init[i] == plan[i];
  }

  /** The pair is a default role and a default permission that the rules of this role select. */
  ghost predicate SelectedPair(f: Folding, d: Db, defaults: Defaults, pair: (Id, Id)) {
    exists r, p :: 0 <= r < |defaults.roles| && 0 <= p < |defaults.permissions|
      && Selects(defaults.roles[r].name, defaults.permissions[p].code)
      && FindRole(f, d, defaults.roles[r].name) == Some(pair.0)
      && FindPermission(f, d, defaults.permissions[p].code) == Some(pair.1)
  }

  /** After a run the role/permission relation is the old one plus exactly the selected pairs. */
  lemma SeededGrants(f: Folding, db: Db, defaults: Defaults, pair: (Id, Id))
    requires Valid(db) && Exec(f, db, Plan(defaults)).Done?
    ensures var d := Exec(f, db, Plan(defaults)).db;
            pair in d.grants <==> pair in db.grants || SelectedPair(f, d, defaults, pair)
  {
    hide Valid, Exec, Selects, FindRole, FindPermission, Plan, GrantedBy;
    var plan := Plan(defaults);
    var d := Exec(f, db, plan).db;
    PlanOrdered(defaults);
    GrantsExactly(f, db, plan, pair);
    GrantedAsSelected(f, d, defaults, pair);
  }

  lemma GrantedAsSelected(f: Folding, d: Db, defaults: Defaults, pair: (Id, Id))
    ensures GrantedBy(f, d, Plan(defaults), pair) <==> SelectedPair(f, d, defaults, pair)
  {
    hide Selects, FindRole, FindPermission, Plan;
    var plan := Plan(defaults);
    if GrantedBy(f, d, plan, pair) {
      var i :| 0 <= i < |plan| && plan[i].AddGrant? && FindRole(f, d, plan[i].roleName) == Some(pair.0)
        && FindPermission(f, d, plan[i].code) == Some(pair.1);
      PlanGrants(defaults, plan[i].roleName, plan[i].code);
      assert plan[i] in plan;
      var r :| 0 <= r < |defaults.roles| && defaults.roles[r].name == plan[i].roleName;
      var p :| 0 <= p < |defaults.permissions| && defaults.permissions[p].code == plan[i].code;
    }
    if SelectedPair(f, d, defaults, pair) {
      var r, p :| 0 <= r < |defaults.roles| && 0 <= p < |defaults.permissions|
        && Selects(defaults.roles[r].name, defaults.permissions[p].code)
        && FindRole(f, d, defaults.roles[r].name) == Some(pair.0)
        && FindPermission(f, d, defaults.permissions[p].code) == Some(pair.1);
      var role, code := defaults.roles[r].name, defaults.permissions[p].code;
      SelectsRuled(role, code);
      PlanGrants(defaults, role, code);
      var i :| 0 <= i < |plan| && plan[i] == AddGrant(role, code);
      assert GrantedBy(f, d, plan, pair);
    }
  }

  lemma SelectsRuled(role: string, code: string)
    requires Selects(role, code)
    ensures role in RULED_ROLES
  {
  }

  lemma PlanGrants(defaults: Defaults, role: string, code: string)
    ensures AddGrant(role, code) in Plan(defaults) <==> Planned(defaults, role, code)
  {
    hide Selects, AllGrants, HasRole;
    AllGrantsExactly(defaults, |defaults.permissions|, AddGrant(role, code));
  }

  /** Nothing is removed or changed, and every new permission is a default that was missing. */
  lemma SeedingKeepsEverything(f: Folding, db: Db, defaults: Defaults)
    requires Valid(db)
    ensures var d := Exec(f, db, Plan(defaults)).db;
            && Grown(db, d)
            && forall i :: i in d.permissions && i !in db.permissions ==>
                 exists j :: 0 <= j < |defaults.permissions| && d.permissions[i] == defaults.permissions[j]
  {
    hide Valid, Exec, Grown;
    var plan := Plan(defaults);
    var d := Exec(f, db, plan).db;
    ExecGrows(f, db, plan);
    forall i | i in d.permissions && i !in db.permissions
      ensures exists j :: 0 <= j < |defaults.permissions| && d.permissions[i] == defaults.permissions[j]
    {
      NewRowsPlanned(f, db, plan);
      var n :| 0 <= n < |plan| && plan[n] == AddPermission(d.permissions[i]);
      PlannedPermission(defaults, n);
    }
  }

  lemma NewRows(f: Folding, db: Db, c: Commit)
    ensures var d := Apply(f, db, c).db;
            && (forall i :: i in d.permissions ==>
                  || (i in db.permissions && d.permissions[i] == db.permissions[i])
                  || AddPermission(d.permissions[i]) == c)
            && (d.users == db.users || c.AddAdmin?)
  {
    hide FindPermission, FindRole, FindType, FindUser, NameTaken, UsernameTaken;
  }

  /** New permission and user rows come from the plan. */
  lemma {:induction false} NewRowsPlanned(f: Folding, db: Db, plan: seq<Commit>)
    requires Valid(db)
    ensures var d := Exec(f, db, plan).db;
            && (forall i :: i in d.permissions ==>
                  || (i in db.permissions && d.permissions[i] == db.permissions[i])
                  || AddPermission(d.permissions[i]) in plan)
            && (d.users == db.users || exists n :: 0 <= n < |plan| && plan[n].AddAdmin?)
  {
    if |plan| > 0 {
      hide Valid, Exec, Apply;
      var init := plan[..|plan| - 1];
      NewRowsPlanned(f, db, init);
      ExecLast(f, db, plan);
      NewRows(f, Exec(f, db, init).db, plan[|plan| - 1]);
      assert forall c :: c in init ==> c in plan;
      assert plan[|plan| - 1] in plan;
      assert forall n :: 0 <= n < |init| ==> init[n] == plan[n];
    }
  }

  /** Where the permission commits of the plan come from. */
  lemma PlannedPermission(defaults: Defaults, n: nat)
    requires n < |Plan(defaults)|
    ensures Plan(defaults)[n].AddPermission? <==> n < |defaults.permissions|
    ensures n < |defaults.permissions| ==> Plan(defaults)[n] == AddPermission(defaults.permissions[n])
    ensures Plan(defaults)[n].AddAdmin? <==> n == |Plan(defaults)| - 1
  {
    hide Selects, HasRole, AllGrants;
    var plan, grants := Plan(defaults), AllGrants(defaults, |defaults.permissions|);
    if |Rows(defaults)| <= n < |plan| - 1 {
      assert plan[n] in grants;
      AllGrantsExactly(defaults, |defaults.permissions|, plan[n]);
    }
  }

  // ---------------------------------------------------------------- when a run succeeds

  /** The insert this commit would make in `db` violates a uniqueness constraint. */
  predicate Blocked(f: Folding, db: Db, c: Commit) {
    match c
    case AddPermission(p) => FindPermission(f, db, p.code).None? && NameTaken(db, p.name)
    case AddAdmin(_) => FindUser(f, db, ADMIN_EMAIL).None? && UsernameTaken(db, ADMIN_USERNAME)
    case _ => false
  }

  ghost predicate DistinctPermissions(f: Folding, ps: seq<PermissionData>) {
    forall i, j :: 0 <= i < j < |ps| ==> f.lower(ps[i].code) != f.lower(ps[j].code) && ps[i].name != ps[j].name
  }

  lemma PermissionMissing(f: Folding, db: Db, code: string)
    requires Valid(db)
    ensures FindPermission(f, db, code).None?
            <==> forall i :: i in db.permissions ==> f.lower(db.permissions[i].code) != f.lower(code)
  {
    hide First;
    assert forall i :: i in db.permissions ==> i in Codes(f, db);
  }

  lemma RoleMissing(f: Folding, db: Db, name: string)
    requires Valid(db)
    ensures FindRole(f, db, name).None?
            <==> forall i :: i in db.roles ==> f.lower(db.roles[i].name) != f.lower(name)
  {
    hide First;
    assert forall i :: i in db.roles ==> i in RoleNames(f, db);
  }

  lemma TypeMissing(f: Folding, db: Db, code: string)
    requires Valid(db)
    ensures FindType(f, db, code).None?
            <==> forall i :: i in db.types ==> f.upper(db.types[i].code) != f.upper(code)
  {
    hide First;
    assert forall i :: i in db.types ==> i in TypeCodes(f, db);
  }

  lemma UserMissing(f: Folding, db: Db, email: string)
    requires Valid(db)
    ensures FindUser(f, db, email).None?
            <==> forall i :: i in db.users ==> f.lower(db.users[i].email) != f.lower(email)
  {
    hide First;
    assert forall i :: i in db.users ==> i in Emails(f, db);
  }

  lemma PermissionRowsUnrelated(f: Folding, db: Db, d: Db, p: PermissionData)
    requires Valid(db) && Valid(d) && Grown(db, d)
    requires forall i :: i in d.permissions && i !in db.permissions ==>
               f.lower(d.permissions[i].code) != f.lower(p.code) && d.permissions[i].name != p.name
    ensures Blocked(f, d, AddPermission(p)) <==> Blocked(f, db, AddPermission(p))
  {
    hide FindPermission;
    PermissionMissing(f, db, p.code);
    PermissionMissing(f, d, p.code);
    assert forall i :: i in db.permissions ==> i in d.permissions && d.permissions[i] == db.permissions[i];
  }

  lemma SameUsers(f: Folding, db: Db, d: Db, withRole: bool)
    requires Valid(db) && Valid(d) && d.users == db.users
    ensures Blocked(f, d, AddAdmin(withRole)) <==> Blocked(f, db, AddAdmin(withRole))
  {
    hide FindUser;
    UserMissing(f, db, ADMIN_EMAIL);
    UserMissing(f, d, ADMIN_EMAIL);
  }

  /** Earlier commits of the plan neither cause nor cure a violation. */
  lemma BlockedAlready(f: Folding, db: Db, defaults: Defaults, n: nat)
    requires Valid(db) && DistinctPermissions(f, defaults.permissions) && n < |Plan(defaults)|
    requires Exec(f, db, Plan(defaults)[..n]).Done?
    ensures Blocked(f, Exec(f, db, Plan(defaults)[..n]).db, Plan(defaults)[n]) <==> Blocked(f, db, Plan(defaults)[n])
  {
    hide Plan, Exec, Valid, Grown, FindPermission, FindUser, NameTaken, UsernameTaken;
    var plan := Plan(defaults);
    var init := plan[..n];
    var d := Exec(f, db, init).db;
    ExecGrows(f, db, init);
    NewRowsPlanned(f, db, init);
    PlannedPermission(defaults, n);
    forall m | 0 <= m < n
      ensures !init[m].AddAdmin?
      ensures init[m].AddPermission? ==> m < |defaults.permissions| && init[m] == AddPermission(defaults.permissions[m])
    {
      PlannedPermission(defaults, m);
    }
    if n < |defaults.permissions| {
      forall i | i in d.permissions && i !in db.permissions
        ensures f.lower(d.permissions[i].code) != f.lower(defaults.permissions[n].code)
        ensures d.permissions[i].name != defaults.permissions[n].name
      {
        var m :| 0 <= m < n && init[m] == AddPermission(d.permissions[i]);
      }
      PermissionRowsUnrelated(f, db, d, defaults.permissions[n]);
    } else if plan[n].AddAdmin? {
      SameUsers(f, db, d, plan[n].withRole);
    }
  }

  lemma ApplyBlocked(f: Folding, db: Db, c: Commit)
    ensures Apply(f, db, c).Aborted? <==> Blocked(f, db, c)
  {
    hide FindPermission, FindRole, FindType, FindUser, NameTaken, UsernameTaken;
  }

  lemma {:induction false} PrefixSucceedsExactly(f: Folding, db: Db, defaults: Defaults, n: nat)
    requires Valid(db) && DistinctPermissions(f, defaults.permissions) && n <= |Plan(defaults)|
    ensures Exec(f, db, Plan(defaults)[..n]).Done?
            <==> forall m :: 0 <= m < n ==> !Blocked(f, db, Plan(defaults)[m])
  {
    hide Plan, Apply, Blocked, Valid, DistinctPermissions;
    var plan := Plan(defaults);
    if n > 0 {
      assert plan[..n][..n - 1] == plan[..n - 1];
      PrefixSucceedsExactly(f, db, defaults, n - 1);
      if Exec(f, db, plan[..n - 1]).Done? {
        BlockedAlready(f, db, defaults, n - 1);
        ApplyBlocked(f, Exec(f, db, plan[..n - 1]).db, plan[n - 1]);
      }
    }
  }

  /** What a caller can check beforehand: no missing default permission has its name taken, and the
      admin's username is free unless the admin exists. */
  predicate CanSeed(f: Folding, db: Db, defaults: Defaults) {
    && (forall j :: 0 <= j < |defaults.permissions| ==>
          || (exists i :: i in db.permissions
                          && f.lower(db.permissions[i].code) == f.lower(defaults.permissions[j].code))
          || (forall i :: i in db.permissions ==> db.permissions[i].name != defaults.permissions[j].name))
    && (|| (exists i :: i in db.users && f.lower(db.users[i].email) == f.lower("admin@apnaerp.com"))
        || (forall i :: i in db.users ==> db.users[i].username != "admin"))
  }

  /** A run succeeds if and only if no name clashes in the starting database. */
  lemma SeedingSucceedsExactly(f: Folding, db: Db, defaults: Defaults)
    requires Valid(db) && DistinctPermissions(f, defaults.permissions)
    ensures Exec(f, db, Plan(defaults)).Done? <==> CanSeed(f, db, defaults)
  {
    hide Plan, Exec, Valid, DistinctPermissions, FindPermission, FindUser, NameTaken, UsernameTaken, CanSeed;
    var plan := Plan(defaults);
    CanSeedUnblocked(f, db, defaults);
    assert plan[..|plan|] == plan;
    PrefixSucceedsExactly(f, db, defaults, |plan|);
    PlanShape(defaults);
    forall n | 0 <= n < |plan|
      ensures plan[n].AddPermission? <==> n < |defaults.permissions|
      ensures plan[n].AddAdmin? <==> n == |plan| - 1
    {
      PlannedPermission(defaults, n);
    }
    forall i | 0 <= i < |defaults.permissions| ensures plan[i] == AddPermission(defaults.permissions[i]) {
      PlannedPermission(defaults, i);
    }
    assert plan[|plan| - 1] == AddAdmin(plan[|plan| - 1].withRole);
    forall n | |defaults.permissions| <= n < |plan| - 1 ensures !Blocked(f, db, plan[n]) {}
  }

  lemma CanSeedUnblocked(f: Folding, db: Db, defaults: Defaults)
    requires Valid(db)
    ensures CanSeed(f, db, defaults)
            <==> && (forall j :: 0 <= j < |defaults.permissions| ==>
                       !Blocked(f, db, AddPermission(defaults.permissions[j])))
                 && (forall withRole :: !Blocked(f, db, AddAdmin(withRole)))
  {
    hide FindPermission, FindUser, Valid;
    UserMissing(f, db, ADMIN_EMAIL);
    forall j | 0 <= j < |defaults.permissions| {
      PermissionMissing(f, db, defaults.permissions[j].code);
    }
    assert Blocked(f, db, AddAdmin(true)) <==> Blocked(f, db, AddAdmin(false));
  }

  lemma PlanShape(defaults: Defaults)
    ensures |Plan(defaults)| > |defaults.permissions|
  {
    hide AllGrants, HasRole;
  }
}
