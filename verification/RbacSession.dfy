/** The seeding procedure itself, on a mutable database session. */
module RbacSession {
  import opened RbacSeeder
  import opened SeededDatabase
  import opened SeedingTheorems
  import opened Wrappers

  class Session {
    var db: Db

    constructor (db: Db)
      ensures this.db == db
    {
      this.db := db;
    }

    /** Insert and commit a permission; `None` is a violation of one of its unique columns. */
    method CreatePermission(p: PermissionData) returns (id: Option<Id>)
      modifies this
      ensures id.None? <==> NameTaken(old(db), p.name)
                            || exists i :: i in old(db).permissions && old(db).permissions[i].code == p.code
      ensures id.None? ==> db == old(db)
      ensures id.Some? ==> id.value == old(db).nextId
      ensures id.Some? ==> db == old(db).(permissions := old(db).permissions[id.value := p], nextId := id.value + 1)
    {
      if NameTaken(db, p.name) || exists i :: i in db.permissions && db.permissions[i].code == p.code {
        return None;
      }
      id := Some(db.nextId);
      db := db.(permissions := db.permissions[db.nextId := p], nextId := db.nextId + 1);
    }

    method CreateRole(r: RoleData) returns (id: Option<Id>)
      modifies this
      ensures id.None? <==> exists i :: i in old(db).roles && old(db).roles[i].name == r.name
      ensures id.None? ==> db == old(db)
      ensures id.Some? ==> id.value == old(db).nextId
      ensures id.Some? ==> db == old(db).(roles := old(db).roles[id.value := r], nextId := id.value + 1)
    {
      if exists i :: i in db.roles && db.roles[i].name == r.name {
        return None;
      }
      id := Some(db.nextId);
      db := db.(roles := db.roles[db.nextId := r], nextId := db.nextId + 1);
    }

    method CreateType(t: TypeData) returns (id: Option<Id>)
      modifies this
      ensures id.None? <==> exists i :: i in old(db).types && old(db).types[i].code == t.code
      ensures id.None? ==> db == old(db)
      ensures id.Some? ==> id.value == old(db).nextId
      ensures id.Some? ==> db == old(db).(types := old(db).types[id.value := t], nextId := id.value + 1)
    {
      if exists i :: i in db.types && db.types[i].code == t.code {
        return None;
      }
      id := Some(db.nextId);
      db := db.(types := db.types[db.nextId := t], nextId := db.nextId + 1);
    }

    /** True when the assignment is new; an existing one is left alone. */
    method AssignPermissionToRole(role: Id, permission: Id) returns (added: bool)
      modifies this
      ensures added <==> (role, permission) !in old(db).grants
      ensures db == old(db).(grants := old(db).grants + {(role, permission)})
    {
      added := (role, permission) !in db.grants;
      if added {
        db := db.(grants := db.grants + {(role, permission)});
      } else {
        assert db.grants == db.grants + {(role, permission)};
      }
    }

    /** Insert the admin with its role in one commit. */
    method CreateAdmin(role: Option<Id>) returns (id: Option<Id>)
      modifies this
      ensures id.None? <==> UsernameTaken(old(db), ADMIN_USERNAME)
                            || exists i :: i in old(db).users && old(db).users[i].email == ADMIN_EMAIL
      ensures id.None? ==> db == old(db)
      ensures id.Some? ==> id.value == old(db).nextId
      ensures id.Some? ==>
                db == old(db).(users := old(db).users[id.value := UserData(ADMIN_EMAIL, ADMIN_USERNAME, true)],
                          userRoles := old(db).userRoles + if role.Some? then {(id.value, role.value)} else {},
                          nextId := id.value + 1)
    {
      if UsernameTaken(db, ADMIN_USERNAME) || exists i :: i in db.users && db.users[i].email == ADMIN_EMAIL {
        return None;
      }
      id := Some(db.nextId);
      db := db.(users := db.users[db.nextId := UserData(ADMIN_EMAIL, ADMIN_USERNAME, true)],
                userRoles := db.userRoles + if role.Some? then {(db.nextId, role.value)} else {},
                nextId := db.nextId + 1);
    }
  }

  // ---------------------------------------------------------------- get or create

  method EnsurePermission(session: Session, f: Folding, p: PermissionData) returns (existing: Option<Id>)
    requires Valid(session.db)
    modifies session
    ensures (if existing.Some? then Done(session.db) else Aborted(session.db))
         == Apply(f, old(session.db), AddPermission(p))
    ensures existing.Some? ==> existing == FindPermission(f, session.db, p.code)
  {
    ghost var before := session.db;
    existing := FindPermission(f, session.db, p.code);
    if existing.None? {
      PermissionMissing(f, session.db, p.code);
      existing := session.CreatePermission(p);
      if existing.Some? {
        CreatedIsFound(f, before, session.db, p);
      }
    }
  }

  lemma CreatedIsFound(f: Folding, before: Db, after: Db, p: PermissionData)
    requires Valid(before) && FindPermission(f, before, p.code).None?
    requires after == before.(permissions := before.permissions[before.nextId := p], nextId := before.nextId + 1)
    ensures FindPermission(f, after, p.code) == Some(before.nextId)
  {
    hide First;
    assert before.nextId in Codes(f, after);
    PermissionMissing(f, before, p.code);
    var found := FindPermission(f, after, p.code);
    assert found.Some?;
  }

  method EnsureRole(session: Session, f: Folding, r: RoleData) returns (existing: Option<Id>)
    requires Valid(session.db)
    modifies session
    ensures (if existing.Some? then Done(session.db) else Aborted(session.db))
         == Apply(f, old(session.db), AddRole(r))
    ensures existing.Some? ==> existing == FindRole(f, session.db, r.name)
  {
    ghost var before := session.db;
    existing := FindRole(f, session.db, r.name);
    if existing.None? {
      RoleMissing(f, session.db, r.name);
      existing := session.CreateRole(r);
      CreatedRoleIsFound(f, before, session.db, r);
    }
  }

  lemma CreatedRoleIsFound(f: Folding, before: Db, after: Db, r: RoleData)
    requires Valid(before) && FindRole(f, before, r.name).None?
    requires after == before.(roles := before.roles[before.nextId := r], nextId := before.nextId + 1)
    ensures FindRole(f, after, r.name) == Some(before.nextId)
  {
    hide First;
    assert before.nextId in RoleNames(f, after);
    RoleMissing(f, before, r.name);
    var found := FindRole(f, after, r.name);
    assert found.Some?;
  }

  method EnsureType(session: Session, f: Folding, t: TypeData)
    requires Valid(session.db)
    modifies session
    ensures Done(session.db) == Apply(f, old(session.db), AddType(t))
  {
    var existing := FindType(f, session.db, t.code);
    if existing.None? {
      TypeMissing(f, session.db, t.code);
      existing := session.CreateType(t);
    }
  }

  method EnsureAdmin(session: Session, f: Folding, superAdmin: Option<Id>, withRole: bool) returns (ok: bool)
    requires Valid(session.db)
    requires superAdmin == if withRole then FindRole(f, session.db, SUPER_ADMIN) else None
    modifies session
    ensures (if ok then Done(session.db) else Aborted(session.db))
         == Apply(f, old(session.db), AddAdmin(withRole))
    ensures var was := old(session.db);
            if exists i :: i in was.users && f.lower(was.users[i].email) == f.lower("admin@apnaerp.com") then
              ok && session.db == was
            else if exists i :: i in was.users && was.users[i].username == "admin" then
              !ok && session.db == was
            else
              && ok
              && session.db.users == was.users[was.nextId := UserData("admin@apnaerp.com", "admin", true)]
              && session.db.userRoles
                 == was.userRoles + (if superAdmin.Some? then {(was.nextId, superAdmin.value)} else {})
  {
    ok := true;
    var existing := FindUser(f, session.db, ADMIN_EMAIL);
    UserMissing(f, session.db, ADMIN_EMAIL);
    if existing.None? {
      existing := session.CreateAdmin(superAdmin);
      ok := existing.Some?;
    }
  }

  // ---------------------------------------------------------------- the run

  lemma ExecSnoc(f: Folding, db: Db, done: seq<Commit>, c: Commit)
    ensures Exec(f, db, done + [c])
         == match Exec(f, db, done) case Done(d) => Apply(f, d, c) case Aborted(d) => Aborted(d)
  {
    assert (done + [c])[..|done|] == done;
  }

  lemma AbortedEarly(f: Folding, db: Db, done: seq<Commit>, plan: seq<Commit>)
    requires done <= plan && Exec(f, db, done).Aborted?
    ensures Exec(f, db, plan) == Exec(f, db, done)
  {
    assert plan == done + plan[|done|..];
    ExecConcat(f, db, done, plan[|done|..]);
  }

  /** The captured objects of `created_perms` and `created_roles` are the rows the lookups find. */
  ghost predicate Captured(f: Folding, db: Db, perms: map<string, Id>, roles: map<string, Id>) {
    && (forall code :: code in perms ==> FindPermission(f, db, code) == Some(perms[code]))
    && (forall name :: name in roles ==> FindRole(f, db, name) == Some(roles[name]))
  }

  lemma CapturedStays(f: Folding, db: Db, c: Commit, perms: map<string, Id>, roles: map<string, Id>)
    requires Valid(db) && Captured(f, db, perms, roles)
    ensures Valid(Apply(f, db, c).db) && Captured(f, Apply(f, db, c).db, perms, roles)
  {
    hide FindPermission, FindRole, Valid, Grown, Apply;
    var d := Apply(f, db, c).db;
    ApplyGrows(f, db, c);
    forall code | code in perms ensures FindPermission(f, d, code) == Some(perms[code]) {
      FindStable(f, db, d, code);
    }
    forall name | name in roles ensures FindRole(f, d, name) == Some(roles[name]) {
      FindStable(f, db, d, name);
    }
  }

  lemma NothingCaptured(f: Folding, db: Db)
    ensures Captured(f, db, map[], map[])
  {
  }

  /** How the planned grants grow, one conditional assignment at a time. */
  lemma GrantSteps(defaults: Defaults)
    ensures AllGrants(defaults, 0) == []
    ensures forall i :: 0 <= i < |defaults.permissions| ==>
              AllGrants(defaults, i + 1)
              == AllGrants(defaults, i) + GrantsOf(defaults, defaults.permissions[i].code, |RULED_ROLES|)
    ensures forall code :: GrantsOf(defaults, code, 0) == []
    ensures forall code, j :: 0 <= j < |RULED_ROLES| ==>
              GrantsOf(defaults, code, j + 1)
              == GrantsOf(defaults, code, j)
                 + if HasRole(defaults, RULED_ROLES[j]) && Selects(RULED_ROLES[j], code)
                   then [AddGrant(RULED_ROLES[j], code)] else []
  {
    hide Selects, HasRole;
  }

  lemma PlanEnds(defaults: Defaults)
    ensures Plan(defaults)
         == Rows(defaults) + AllGrants(defaults, |defaults.permissions|) + [AddAdmin(HasRole(defaults, SUPER_ADMIN))]
  {
  }

  lemma RunSteps(f: Folding, db0: Db, d: Db, done: seq<Commit>, c: Commit,
                 perms: map<string, Id>, roles: map<string, Id>)
    requires Exec(f, db0, done) == Done(d) && Valid(d) && Captured(f, d, perms, roles)
    ensures Exec(f, db0, done + [c]) == Apply(f, d, c)
    ensures Valid(Apply(f, d, c).db) && Captured(f, Apply(f, d, c).db, perms, roles)
  {
    hide Captured, Valid, Apply;
    ExecSnoc(f, db0, done, c);
    CapturedStays(f, d, c, perms, roles);
  }

  lemma RoleNeverAborts(f: Folding, db: Db, r: RoleData)
    ensures Apply(f, db, AddRole(r)).Done?
  {
  }

  lemma CapturePermission(f: Folding, db: Db, perms: map<string, Id>, roles: map<string, Id>, code: string, id: Id)
    requires Captured(f, db, perms, roles) && FindPermission(f, db, code) == Some(id)
    ensures Captured(f, db, perms[code := id], roles)
  {
    hide FindPermission, FindRole;
  }

  lemma CaptureRole(f: Folding, db: Db, perms: map<string, Id>, roles: map<string, Id>, name: string, id: Id)
    requires Captured(f, db, perms, roles) && FindRole(f, db, name) == Some(id)
    ensures Captured(f, db, perms, roles[name := id])
  {
    hide FindPermission, FindRole;
  }

  lemma GrantApplies(f: Folding, db: Db, perms: map<string, Id>, roles: map<string, Id>, name: string, code: string)
    requires Captured(f, db, perms, roles) && name in roles && code in perms
    ensures Apply(f, db, AddGrant(name, code)) == Done(db.(grants := db.grants + {(roles[name], perms[code])}))
  {
    hide FindPermission, FindRole;
  }

  lemma SuperAdminCaptured(f: Folding, db: Db, perms: map<string, Id>, roles: map<string, Id>)
    requires Captured(f, db, perms, roles)
    ensures SUPER_ADMIN in roles ==> FindRole(f, db, SUPER_ADMIN) == Some(roles[SUPER_ADMIN])
  {
    hide FindPermission, FindRole;
  }

  lemma PlanStarts(defaults: Defaults, n: nat)
    requires n <= |defaults.permissions|
    ensures PermissionRows(defaults)[..n] <= Plan(defaults)
  {
    hide AllGrants, HasRole;
  }

  lemma RunOutcome(f: Folding, db: Db, defaults: Defaults)
    requires Valid(db)
    ensures var run := Exec(f, db, Plan(defaults));
            if run.Done? then Seeded(f, db, run.db, defaults) else CutOff(f, db, run.db, defaults)
    ensures DistinctPermissions(f, defaults.permissions) ==>
              (Exec(f, db, Plan(defaults)).Done? <==> CanSeed(f, db, defaults))
  {
    hide Valid, Exec, Plan, Seeded, CutOff, CanSeed, DistinctPermissions;
    if Exec(f, db, Plan(defaults)).Done? {
      SeededExactly(f, db, defaults);
    } else {
      AbortedExactly(f, db, defaults);
    }
    if DistinctPermissions(f, defaults.permissions) {
      SeedingSucceedsExactly(f, db, defaults);
    }
  }

  /** `seed_rbac_data`: five phases, committing as it goes.  It ends exactly where the plan of
      commits ends, with every table seeded if it gets through; `ok` is false when an insert violated a
      uniqueness constraint, which a caller can rule out beforehand. */
  method SeedRbacData(session: Session, f: Folding, defaults: Defaults) returns (ok: bool)
    requires Valid(session.db)
    requires forall i, j :: 0 <= i < j < |defaults.permissions| ==>
               defaults.permissions[i].code != defaults.permissions[j].code
    modifies session
    ensures (if ok then Done(session.db) else Aborted(session.db)) == Exec(f, old(session.db), Plan(defaults))
    ensures if ok then Seeded(f, old(session.db), session.db, defaults)
            else CutOff(f, old(session.db), session.db, defaults)
    ensures DistinctPermissions(f, defaults.permissions) ==> (ok <==> CanSeed(f, old(session.db), defaults))
  {
    hide Valid, Captured, Exec, Apply, Plan, Selects, GrantsOf, AllGrants, FindPermission, FindRole;
    hide Seeded, CutOff, CanSeed, DistinctPermissions;
    ghost var db0 := session.db;
    ghost var done: seq<Commit> := [];
    var createdPerms: map<string, Id> := map[];
    var createdRoles: map<string, Id> := map[];
    assert Exec(f, db0, []) == Done(db0) by { SettledPlanDoesNothing(f, db0, []); }
    assert Captured(f, db0, map[], map[]) by { NothingCaptured(f, db0); }

    // 1. permissions
    for i := 0 to |defaults.permissions|
      invariant done == PermissionRows(defaults)[..i]
      invariant Exec(f, db0, done) == Done(session.db) && Valid(session.db)
      invariant Captured(f, session.db, createdPerms, createdRoles) && createdRoles == map[]
      invariant forall n :: 0 <= n < i ==> defaults.permissions[n].code in createdPerms
    {
      var p := defaults.permissions[i];
      ghost var d := session.db;
      var existing := EnsurePermission(session, f, p);
      RunSteps(f, db0, d, done, AddPermission(p), createdPerms, createdRoles);
      done := done + [AddPermission(p)];
      assert done == PermissionRows(defaults)[..i + 1];
      if existing.None? {
        PlanStarts(defaults, i + 1);
        AbortedEarly(f, db0, done, Plan(defaults));
        RunOutcome(f, db0, defaults);
        return false;
      }
      CapturePermission(f, session.db, createdPerms, createdRoles, p.code, existing.value);
      createdPerms := createdPerms[p.code := existing.value];
    }
    assert done == PermissionRows(defaults);

    // 2. roles
    for i := 0 to |defaults.roles|
      invariant done == PermissionRows(defaults) + RoleRows(defaults)[..i]
      invariant Exec(f, db0, done) == Done(session.db) && Valid(session.db)
      invariant Captured(f, session.db, createdPerms, createdRoles)
      invariant forall n :: 0 <= n < |defaults.permissions| ==> defaults.permissions[n].code in createdPerms
      invariant forall name :: name in createdRoles <==> exists n :: 0 <= n < i && defaults.roles[n].name == name
    {
      var r := defaults.roles[i];
      ghost var d := session.db;
      var existing := EnsureRole(session, f, r);
      RoleNeverAborts(f, d, r);
      RunSteps(f, db0, d, done, AddRole(r), createdPerms, createdRoles);
      done := done + [AddRole(r)];
      assert done == PermissionRows(defaults) + RoleRows(defaults)[..i + 1];
      CaptureRole(f, session.db, createdPerms, createdRoles, r.name, existing.value);
      createdRoles := createdRoles[r.name := existing.value];
    }
    assert forall name :: name in createdRoles <==> HasRole(defaults, name);

    // 3. transaction types
    for i := 0 to |defaults.types|
      invariant done == PermissionRows(defaults) + RoleRows(defaults) + TypeRows(defaults)[..i]
      invariant Exec(f, db0, done) == Done(session.db) && Valid(session.db)
      invariant Captured(f, session.db, createdPerms, createdRoles)
    {
      var t := defaults.types[i];
      ghost var d := session.db;
      EnsureType(session, f, t);
      RunSteps(f, db0, d, done, AddType(t), createdPerms, createdRoles);
      done := done + [AddType(t)];
      assert done == PermissionRows(defaults) + RoleRows(defaults) + TypeRows(defaults)[..i + 1];
    }
    assert done == Rows(defaults);
    GrantSteps(defaults);

    // 4. role assignments; created_perms is walked in insertion order
    for i := 0 to |defaults.permissions|
      invariant done == Rows(defaults) + AllGrants(defaults, i)
      invariant Exec(f, db0, done) == Done(session.db) && Valid(session.db)
      invariant Captured(f, session.db, createdPerms, createdRoles)
    {
      var code := defaults.permissions[i].code;
      var permission := createdPerms[code];
      for j := 0 to |RULED_ROLES|
        invariant done == Rows(defaults) + AllGrants(defaults, i) + GrantsOf(defaults, code, j)
        invariant Exec(f, db0, done) == Done(session.db) && Valid(session.db)
        invariant Captured(f, session.db, createdPerms, createdRoles)
      {
        var name := RULED_ROLES[j];
        if name in createdRoles && Selects(name, code) {
          ghost var d := session.db;
          var _ := session.AssignPermissionToRole(createdRoles[name], permission);
          GrantApplies(f, d, createdPerms, createdRoles, name, code);
          RunSteps(f, db0, d, done, AddGrant(name, code), createdPerms, createdRoles);
          done := done + [AddGrant(name, code)];
        }
        assert done == Rows(defaults) + AllGrants(defaults, i) + GrantsOf(defaults, code, j + 1);
      }
    }

    // 5. the admin user
    var superAdmin := if SUPER_ADMIN in createdRoles then Some(createdRoles[SUPER_ADMIN]) else None;
    ghost var d := session.db;
    ghost var last := AddAdmin(HasRole(defaults, SUPER_ADMIN));
    SuperAdminCaptured(f, d, createdPerms, createdRoles);
    ok := EnsureAdmin(session, f, superAdmin, SUPER_ADMIN in createdRoles);
    ExecSnoc(f, db0, done, last);
    PlanEnds(defaults);
    RunOutcome(f, db0, defaults);
  }
}
