/** Keeping the Forgejo teams of a project in step with its roles (internal/forgejo/core.go, internal/authz/authz.go). */
module TeamSync {
  import opened Option

  datatype Role = Admin | Deployer | Viewer

  datatype OrgRole = NoMember | Owner | OrgAdmin | PlainMember | ReadOnly | Unknown

  datatype Mode = Open | Restricted

  // The logins in the team of each role.
  type Teams = map<Role, set<string>>

  // `hidden`: a member of the organization who must not learn that the project exists.
  datatype Access = Access(role: Option<Role>, hidden: bool)

  // The effective role: organization role, access mode and the explicit role, if it is a valid one.
  function Resolve(org: OrgRole, mode: Mode, explicit: Option<Role>): Access {
    match org
    case NoMember => Access(None, false)
    case Owner => Access(Some(Admin), false)
    case OrgAdmin => Access(Some(Admin), false)
    case ReadOnly => if mode == Restricted && explicit == None then Access(None, true) else Access(Some(Viewer), false)
    case PlainMember =>
      if explicit.Some? then Access(explicit, false)
      else if mode == Restricted then Access(None, true)
      else Access(Some(Deployer), false)
    case Unknown => Access(None, true)
  }

  // Looking up the login of a member can fail or give an empty name: `username` is then None.
  datatype Member = Member(id: nat, org: OrgRole, explicit: Option<Role>, username: Option<string>)

  /**
   Who gets which role. Owners and admins of the organization are admins whatever the project says; read-only
   members are never more than viewers; plain members have the role the project gives them and deploy in an
   open project that gives them none; in restricted mode everybody else needs a role of their own. Exactly the
   members left without a role must not learn of the project.
   */
  lemma {:induction false} ResolveBounds(org: OrgRole, mode: Mode, explicit: Option<Role>)
    ensures var role := Resolve(org, mode, explicit).role;
            && (role == Some(Admin) <==> org in {Owner, OrgAdmin} || (org == PlainMember && explicit == Some(Admin)))
            && (role == Some(Deployer) <==> org == PlainMember && (explicit == Some(Deployer) || (explicit == None && mode == Open)))
            && (role == Some(Viewer) <==>
                  || (org == ReadOnly && (mode == Open || explicit.Some?))
                  || (org == PlainMember && explicit == Some(Viewer)))
            && (role == None <==>
                  org in {NoMember, Unknown} || (org in {PlainMember, ReadOnly} && mode == Restricted && explicit == None))
    ensures Resolve(org, mode, explicit).hidden <==> org != NoMember && Resolve(org, mode, explicit).role == None
  {
  }

  function Lower(s: string): (r: string)
    ensures |r| == |s|
  {
    seq(|s|, i requires 0 <= i < |s| => if 'A' <= s[i] <= 'Z' then s[i] - 'A' + 'a' else s[i])
  }

  /** Only the 26 capital letters change. */
  lemma {:induction false} LowerMeans(s: string, i: nat)
    requires i < |s|
    ensures if s[i] in "ABCDEFGHIJKLMNOPQRSTUVWXYZ" then Lower(s)[i] as int == s[i] as int + 32 else Lower(s)[i] == s[i]
  {
  }

  function RoleOf(m: Member, mode: Mode): Option<Role> {
    Resolve(m.org, mode, m.explicit).role
  }

  // The member's login, in lower case, is that of an existing user.
  predicate Named(m: Member, login: string, users: set<string>) {
    m.username.Some? && Lower(m.username.value) == login && login in users
  }

  // The login that a member's role entitles to a place in a team.
  function Login(m: Member, mode: Mode, users: set<string>): Option<string> {
    if RoleOf(m, mode).Some? && m.username.Some? && Lower(m.username.value) in users then Some(Lower(m.username.value)) else None
  }

  // Who belongs in the team of a role.
  function Entitled(ms: seq<Member>, mode: Mode, users: set<string>, role: Role): set<string> {
    if ms == [] then {}
    else
      var m := ms[|ms| - 1];
      Entitled(ms[..|ms| - 1], mode, users, role)
      + if RoleOf(m, mode) == Some(role) && Login(m, mode, users).Some? then {Login(m, mode, users).value} else {}
  }

  // Members with a role whose login is unknown or does not exist yet, in order.
  function PendingOf(ms: seq<Member>, mode: Mode, users: set<string>): seq<nat> {
    if ms == [] then []
    else
      var m := ms[|ms| - 1];
      PendingOf(ms[..|ms| - 1], mode, users) + if RoleOf(m, mode).Some? && Login(m, mode, users) == None then [m.id] else []
  }

  // The members entitled to a team are those whose role is the team's and whose login exists.
  lemma {:induction false} EntitledMeans(ms: seq<Member>, mode: Mode, users: set<string>, role: Role, login: string)
    ensures login in Entitled(ms, mode, users, role) <==>
            exists m :: m in ms && Named(m, login, users) && RoleOf(m, mode) == Some(role)
  {
    hide Resolve, Lower;
    if ms != [] {
      var init, m := ms[..|ms| - 1], ms[|ms| - 1];
      assert ms == init + [m];
      EntitledMeans(init, mode, users, role, login);
    }
  }

  lemma {:induction false} PendingMeans(ms: seq<Member>, mode: Mode, users: set<string>, id: nat)
    ensures id in PendingOf(ms, mode, users) <==>
            exists m :: && m in ms && m.id == id && RoleOf(m, mode).Some?
                        && (m.username.Some? ==> Lower(m.username.value) !in users)
  {
    hide Resolve, Lower;
    if ms != [] {
      var init, m := ms[..|ms| - 1], ms[|ms| - 1];
      assert ms == init + [m];
      PendingMeans(init, mode, users, id);
    }
  }

  function Names(ms: seq<Member>): set<string> {
    if ms == [] then {}
    else
      var m := ms[|ms| - 1];
      Names(ms[..|ms| - 1]) + if m.username.Some? then {Lower(m.username.value)} else {}
  }

  // No two members have the same login.
  predicate Distinct(ms: seq<Member>) {
    ms != [] ==>
      var init, m := ms[..|ms| - 1], ms[|ms| - 1];
      Distinct(init) && (m.username.Some? ==> Lower(m.username.value) !in Names(init))
  }

  lemma {:induction false} EntitledAreNames(ms: seq<Member>, mode: Mode, users: set<string>, role: Role)
    ensures Entitled(ms, mode, users, role) <= Names(ms) && Entitled(ms, mode, users, role) <= users
  {
    if ms != [] {
      EntitledAreNames(ms[..|ms| - 1], mode, users, role);
    }
  }

  /** Nobody is entitled to two teams. */
  lemma {:induction false} OneTeamEach(ms: seq<Member>, mode: Mode, users: set<string>, a: Role, b: Role)
    requires Distinct(ms) && a != b
    ensures Entitled(ms, mode, users, a) !! Entitled(ms, mode, users, b)
  {
    if ms != [] {
      var init := ms[..|ms| - 1];
      OneTeamEach(init, mode, users, a, b);
      EntitledAreNames(init, mode, users, a);
      EntitledAreNames(init, mode, users, b);
    }
  }

  /** Forgejo: existing logins and team members, in lower case. Any call may fail without effect. */
  class Forge {
    var users: set<string>
    var teams: Teams
    var edits: nat
    var faults: seq<bool>
    // How many calls have failed so far.
    ghost var failed: nat

    ghost predicate Valid()
      reads this
    {
      teams.Keys == {Admin, Deployer, Viewer} && forall r :: r in teams ==> teams[r] <= users
    }

    method Fault() returns (err: bool)
      modifies this`faults, this`failed
      ensures failed == old(failed) + (if err then 1 else 0) && (old(faults) == [] ==> faults == [] && !err)
    {
      err := false;
      if faults != [] {
        err := faults[0];
        faults := faults[1..];
      }
      if err {
        failed := failed + 1;
      }
    }

    method TeamMembers(role: Role) returns (err: bool, logins: set<string>)
      requires Valid()
      modifies this`faults, this`failed
      ensures logins == teams[role] && failed == old(failed) + if err then 1 else 0
      ensures old(faults) == [] ==> faults == [] && !err
    {
      err := Fault();
      logins := teams[role];
    }

    method UserExists(name: string) returns (err: bool, exists_: bool)
      modifies this`faults, this`failed
      ensures exists_ == (name in users) && failed == old(failed) + if err then 1 else 0
      ensures old(faults) == [] ==> faults == [] && !err
    {
      err := Fault();
      exists_ := name in users;
    }

    method AddTeamMember(role: Role, name: string) returns (err: bool)
      requires Valid() && name in users
      modifies this`faults, this`failed, this`teams, this`edits
      ensures Valid() && teams == (if err then old(teams) else old(teams)[role := old(teams)[role] + {name}])
      ensures edits == old(edits) + 1 && failed == old(failed) + if err then 1 else 0
      ensures old(faults) == [] ==> faults == [] && !err
    {
      err := Fault();
      edits := edits + 1;
      if !err {
        teams := teams[role := teams[role] + {name}];
      }
    }

    method RemoveTeamMember(role: Role, name: string) returns (err: bool)
      requires Valid()
      modifies this`faults, this`failed, this`teams, this`edits
      ensures Valid() && teams == (if err then old(teams) else old(teams)[role := old(teams)[role] - {name}])
      ensures edits == old(edits) + 1 && failed == old(failed) + if err then 1 else 0
      ensures old(faults) == [] ==> faults == [] && !err
    {
      err := Fault();
      edits := edits + 1;
      if !err {
        teams := teams[role := teams[role] - {name}];
      }
    }
  }

  // `desired` gives every login entitled so far its role.
  ghost predicate Desires(desired: map<string, Role>, ms: seq<Member>, mode: Mode, users: set<string>) {
    forall n, r :: (n in desired && desired[n] == r) <==> n in Entitled(ms, mode, users, r)
  }

  // The teams after the members so far were added.
  ghost predicate AddedTo(teams: Teams, current: Teams, ms: seq<Member>, mode: Mode, users: set<string>) {
    && teams.Keys == current.Keys == {Admin, Deployer, Viewer}
    && forall r :: r in teams ==> teams[r] == current[r] + Entitled(ms, mode, users, r)
  }

  lemma {:induction false} EntitledOneMore(ms: seq<Member>, m: Member, mode: Mode, users: set<string>, r: Role)
    ensures Entitled(ms + [m], mode, users, r)
         == Entitled(ms, mode, users, r) + if RoleOf(m, mode) == Some(r) && Login(m, mode, users).Some? then {Login(m, mode, users).value} else {}
    ensures PendingOf(ms + [m], mode, users)
         == PendingOf(ms, mode, users) + if RoleOf(m, mode).Some? && Login(m, mode, users) == None then [m.id] else []
  {
    assert (ms + [m])[..|ms|] == ms;
  }

  lemma {:induction false} DesiresOneMore(desired: map<string, Role>, ms: seq<Member>, m: Member, mode: Mode, users: set<string>)
    requires Desires(desired, ms, mode, users) && Distinct(ms + [m])
    ensures Login(m, mode, users) == None ==> Desires(desired, ms + [m], mode, users)
    ensures Login(m, mode, users).Some? ==>
              Desires(desired[Login(m, mode, users).value := RoleOf(m, mode).value], ms + [m], mode, users)
  {
    assert (ms + [m])[..|ms|] == ms;
    var login := Login(m, mode, users);
    var after := if login.Some? then desired[login.value := RoleOf(m, mode).value] else desired;
    hide Resolve, Lower;
    forall n, r ensures (n in after && after[n] == r) <==> n in Entitled(ms + [m], mode, users, r) {
      EntitledAreNames(ms, mode, users, r);
      EntitledOneMore(ms, m, mode, users, r);
    }
  }

  // A prefix of distinct members is distinct.
  lemma {:induction false} DistinctPrefix(ms: seq<Member>, k: nat)
    requires k <= |ms| && Distinct(ms)
    ensures Distinct(ms[..k])
    decreases |ms|
  {
    if k == |ms| {
      assert ms[..k] == ms;
    } else {
      DistinctPrefix(ms[..|ms| - 1], k);
      assert ms[..|ms| - 1][..k] == ms[..k];
    }
  }

  // Every team holds exactly those entitled to it.
  ghost predicate InSync(teams: Teams, ms: seq<Member>, mode: Mode, users: set<string>) {
    && teams.Keys == {Admin, Deployer, Viewer}
    && forall r :: r in teams ==> teams[r] == Entitled(ms, mode, users, r)
  }

  // Nobody entitled was taken out and nobody else put in.
  ghost predicate Harmless(before: Teams, after: Teams, ms: seq<Member>, mode: Mode, users: set<string>) {
    && before.Keys == after.Keys == {Admin, Deployer, Viewer}
    && forall r :: r in after ==> && after[r] <= before[r] + Entitled(ms, mode, users, r)
                                  && before[r] * Entitled(ms, mode, users, r) <= after[r]
  }

  lemma {:induction false} NothingAdded(current: Teams, mode: Mode, users: set<string>)
    requires current.Keys == {Admin, Deployer, Viewer}
    ensures AddedTo(current, current, [], mode, users) && Desires(map[], [], mode, users)
  {
  }

  lemma {:induction false} PendingOneMore(teams: Teams, current: Teams, ms: seq<Member>, m: Member, mode: Mode, users: set<string>)
    requires AddedTo(teams, current, ms, mode, users)
    ensures Login(m, mode, users) == None ==> AddedTo(teams, current, ms + [m], mode, users)
    ensures Login(m, mode, users).Some? ==>
              var r, n := RoleOf(m, mode).value, Login(m, mode, users).value;
              && r in teams && r in current && AddedTo(teams[r := teams[r] + {n}], current, ms + [m], mode, users)
              && (n in current[r] ==> AddedTo(teams, current, ms + [m], mode, users))
  {
    hide Resolve, Lower, Login, Entitled, RoleOf;
    if Login(m, mode, users).Some? {
      LoginHasRole(m, mode, users);
      var r := RoleOf(m, mode).value;
      assert r == Admin || r == Deployer || r == Viewer;
    }
    forall r ensures Entitled(ms + [m], mode, users, r)
                  == Entitled(ms, mode, users, r) + if RoleOf(m, mode) == Some(r) && Login(m, mode, users).Some? then {Login(m, mode, users).value} else {}
    {
      EntitledOneMore(ms, m, mode, users, r);
    }
  }

  lemma {:induction false} LoginHasRole(m: Member, mode: Mode, users: set<string>)
    ensures Login(m, mode, users).Some? ==> RoleOf(m, mode).Some?
  {
  }

  /** Adds every member to the team of its role. */
  method AddMembers(f: Forge, ms: seq<Member>, mode: Mode, current: Teams)
    returns (err: bool, desired: map<string, Role>, pending: seq<nat>)
    requires f.Valid() && f.teams == current && Distinct(ms)
    modifies f
    ensures f.Valid() && f.users == old(f.users)
    ensures !err ==> && Desires(desired, ms, mode, f.users) && AddedTo(f.teams, current, ms, mode, f.users)
                     && pending == PendingOf(ms, mode, f.users)
    ensures exists k :: 0 <= k <= |ms| && AddedTo(f.teams, current, ms[..k], mode, f.users)
    ensures InSync(current, ms, mode, f.users) ==> f.edits == old(f.edits)
    ensures f.failed == old(f.failed) + (if err then 1 else 0) && (old(f.faults) == [] ==> f.faults == [] && !err)
  {
    hide Resolve, Lower, Desires, AddedTo, Distinct, Entitled, InSync, PendingOf;
    desired, pending := map[], [];
    NothingAdded(current, mode, f.users);
    NothingPending(mode, f.users);
    assert ms[..0] == [];
    for i := 0 to |ms|
      invariant f.Valid() && f.users == old(f.users) && f.failed == old(f.failed) && (old(f.faults) == [] ==> f.faults == [])
      invariant Desires(desired, ms[..i], mode, f.users) && AddedTo(f.teams, current, ms[..i], mode, f.users)
      invariant pending == PendingOf(ms[..i], mode, f.users)
      invariant InSync(current, ms, mode, f.users) ==> f.edits == old(f.edits)
    {
      ghost var done, m := ms[..i], ms[i];
      assert ms[..i + 1] == done + [m];
      DistinctPrefix(ms, i + 1);
      DesiresOneMore(desired, done, m, mode, f.users);
      PendingOneMore(f.teams, current, done, m, mode, f.users);
      EntitledOneMore(done, m, mode, f.users, Admin);
      var role := RoleOf(ms[i], mode);
      if role == None {
        continue;
      }
      if ms[i].username == None {
        pending := pending + [ms[i].id];
        continue;
      }
      var name := Lower(ms[i].username.value);
      RolesAreTeams(f.teams, current, done, mode, f.users, role.value);
      if name in current[role.value] {
        CurrentAreUsers(f.teams, current, done, mode, f.users, role.value, name);
        desired := desired[name := role.value];
        continue;
      }
      var uerr, known := f.UserExists(name);
      if uerr {
        err := true;
        return;
      }
      if !known {
        pending := pending + [ms[i].id];
        continue;
      }
      InSyncMeans(current, ms, i, mode, f.users);
      var aerr := f.AddTeamMember(role.value, name);
      if aerr {
        err := true;
        return;
      }
      desired := desired[name := role.value];
    }
    assert ms[..|ms|] == ms;
    err := false;
  }

  lemma {:induction false} NothingPending(mode: Mode, users: set<string>)
    ensures PendingOf([], mode, users) == []
  {
  }

  lemma {:induction false} RolesAreTeams(teams: Teams, current: Teams, ms: seq<Member>, mode: Mode, users: set<string>, r: Role)
    requires AddedTo(teams, current, ms, mode, users)
    ensures r in teams && r in current
  {
  }

  lemma {:induction false} CurrentAreUsers(teams: Teams, current: Teams, ms: seq<Member>, mode: Mode, users: set<string>, r: Role,
          n: string)
    requires AddedTo(teams, current, ms, mode, users) && r in current && r in teams && n in current[r] && teams[r] <= users
    ensures n in users
  {
  }

  // In teams that are in step already, a member entitled to a team is in it.
  lemma {:induction false} InSyncMeans(current: Teams, ms: seq<Member>, i: nat, mode: Mode, users: set<string>)
    requires i < |ms| && Login(ms[i], mode, users).Some? && RoleOf(ms[i], mode).Some?
    ensures InSync(current, ms, mode, users) ==>
              var r := RoleOf(ms[i], mode).value; r in current && Login(ms[i], mode, users).value in current[r]
  {
    var r := RoleOf(ms[i], mode).value;
    assert r == Admin || r == Deployer || r == Viewer;
    EntitledHas(ms, i, mode, users);
  }

  lemma {:induction false} EntitledHas(ms: seq<Member>, i: nat, mode: Mode, users: set<string>)
    requires i < |ms| && Login(ms[i], mode, users).Some? && RoleOf(ms[i], mode).Some?
    ensures Login(ms[i], mode, users).value in Entitled(ms, mode, users, RoleOf(ms[i], mode).value)
  {
    if i < |ms| - 1 {
      EntitledHas(ms[..|ms| - 1], i, mode, users);
    }
  }

  // The teams of the roles in `todo` are as after the adding, the others are in step, and of the team of
  // `role` only `left` still has to be looked at.
  ghost predicate Removing(teams: Teams, current: Teams, ms: seq<Member>, mode: Mode, users: set<string>, todo: set<Role>,
          role: Role, left: set<string>)
  {
    && teams.Keys == current.Keys == {Admin, Deployer, Viewer} && role !in todo
    && forall r :: r in teams ==>
                     teams[r] == Entitled(ms, mode, users, r) + if r in todo then current[r] else if r == role then left else {}
  }

  lemma {:induction false} RemovesOne(teams: Teams, current: Teams, desired: map<string, Role>, ms: seq<Member>, mode: Mode,
          users: set<string>, todo: set<Role>, role: Role, left: set<string>, n: string)
    requires Removing(teams, current, ms, mode, users, todo, role, left) && Desires(desired, ms, mode, users)
    requires role in teams && n in left
    ensures n in desired && desired[n] == role ==> Removing(teams, current, ms, mode, users, todo, role, left - {n})
    ensures !(n in desired && desired[n] == role) ==>
              Removing(teams[role := teams[role] - {n}], current, ms, mode, users, todo, role, left - {n})
  {
    hide Entitled;
    assert n in desired && desired[n] == role <==> n in Entitled(ms, mode, users, role);
  }

  // What was added but not yet removed does no harm, nor does what was removed so far.
  lemma {:induction false} RemovingIsHarmless(teams: Teams, current: Teams, ms: seq<Member>, mode: Mode, users: set<string>,
          todo: set<Role>, role: Role, left: set<string>)
    requires Removing(teams, current, ms, mode, users, todo, role, left) && (role in current ==> left <= current[role])
    ensures Harmless(current, teams, ms, mode, users)
  {
    hide Entitled;
  }

  lemma {:induction false} EntitledPrefix(ms: seq<Member>, k: nat, mode: Mode, users: set<string>, r: Role)
    requires k <= |ms|
    ensures Entitled(ms[..k], mode, users, r) <= Entitled(ms, mode, users, r)
    decreases |ms|
  {
    if k == |ms| {
      assert ms[..k] == ms;
    } else {
      EntitledPrefix(ms[..|ms| - 1], k, mode, users, r);
      assert ms[..|ms| - 1][..k] == ms[..k];
    }
  }

  lemma {:induction false} AddingIsHarmless(teams: Teams, current: Teams, ms: seq<Member>, k: nat, mode: Mode, users: set<string>)
    requires k <= |ms| && AddedTo(teams, current, ms[..k], mode, users)
    ensures Harmless(current, teams, ms, mode, users)
  {
    hide Entitled;
    forall r ensures Entitled(ms[..k], mode, users, r) <= Entitled(ms, mode, users, r) {
      EntitledPrefix(ms, k, mode, users, r);
    }
  }

  // The team of the next role is to be looked at in full.
  lemma {:induction false} NextRole(teams: Teams, current: Teams, ms: seq<Member>, mode: Mode, users: set<string>, todo: set<Role>,
          role: Role, next: Role)
    requires Removing(teams, current, ms, mode, users, todo, role, {}) && next in todo
    ensures next in teams && next in current && Removing(teams, current, ms, mode, users, todo - {next}, next, current[next])
  {
    hide Entitled;
    assert next == Admin || next == Deployer || next == Viewer;
  }

  // A login already in step is never removed.
  lemma {:induction false} StaysIfInSync(current: Teams, desired: map<string, Role>, ms: seq<Member>, mode: Mode,
          users: set<string>, role: Role, n: string)
    requires InSync(current, ms, mode, users) && Desires(desired, ms, mode, users) && role in current && n in current[role]
    ensures n in desired && desired[n] == role
  {
  }

  /** Takes everybody out of a team who is not entitled to it. */
  method RemoveOthers(f: Forge, ms: seq<Member>, mode: Mode, current: Teams, desired: map<string, Role>) returns (err: bool)
    requires f.Valid() && AddedTo(f.teams, current, ms, mode, f.users) && Desires(desired, ms, mode, f.users)
    modifies f
    ensures f.Valid() && f.users == old(f.users) && Harmless(current, f.teams, ms, mode, f.users)
    ensures !err ==> InSync(f.teams, ms, mode, f.users)
    ensures InSync(current, ms, mode, f.users) ==> f.edits == old(f.edits)
    ensures f.failed == old(f.failed) + (if err then 1 else 0) && (old(f.faults) == [] ==> f.faults == [] && !err)
  {
    hide Desires, Entitled, InSync, Removing, AddedTo, Harmless;
    var first := Admin;
    var todo := {Deployer, Viewer};
    StartRemoving(f.teams, current, ms, mode, f.users);
    var role, left := first, current[first];
    while true
      invariant f.Valid() && f.users == old(f.users) && f.failed == old(f.failed) && (old(f.faults) == [] ==> f.faults == [])
      invariant role in current && role in f.teams && left <= current[role] && todo <= {Deployer, Viewer}
      invariant Removing(f.teams, current, ms, mode, f.users, todo, role, left)
      invariant InSync(current, ms, mode, f.users) ==> f.edits == old(f.edits)
      decreases |todo|, |left|
    {
      RemovingIsHarmless(f.teams, current, ms, mode, f.users, todo, role, left);
      if left == {} {
        if todo == {} {
          DoneRemoving(f.teams, current, ms, mode, f.users, role);
          return false;
        }
        var next := if Deployer in todo then Deployer else Viewer;
        SomeRole(todo);
        NextRole(f.teams, current, ms, mode, f.users, todo, role, next);
        role, left, todo := next, current[next], todo - {next};
      } else {
        var login :| login in left;
        RemovesOne(f.teams, current, desired, ms, mode, f.users, todo, role, left, login);
        if login in desired && desired[login] == role {
        } else {
          if InSync(current, ms, mode, f.users) {
            StaysIfInSync(current, desired, ms, mode, f.users, role, login);
          }
          err := f.RemoveTeamMember(role, login);
          if err {
            return;
          }
        }
        left := left - {login};
      }
    }
  }

  lemma {:induction false} SomeRole(todo: set<Role>)
    requires todo != {} && todo <= {Deployer, Viewer}
    ensures Deployer in todo || Viewer in todo
  {
  }

  lemma {:induction false} StartRemoving(teams: Teams, current: Teams, ms: seq<Member>, mode: Mode, users: set<string>)
    requires AddedTo(teams, current, ms, mode, users)
    ensures Admin in current && Admin in teams && Removing(teams, current, ms, mode, users, {Deployer, Viewer}, Admin, current[Admin])
  {
    hide Entitled;
  }

  lemma {:induction false} DoneRemoving(teams: Teams, current: Teams, ms: seq<Member>, mode: Mode, users: set<string>, role: Role)
    requires Removing(teams, current, ms, mode, users, {}, role, {})
    ensures InSync(teams, ms, mode, users)
  {
    hide Entitled;
  }

  // Who is in which team.
  ghost predicate ByRole(teams: Teams, ms: seq<Member>, mode: Mode, users: set<string>) {
    && teams.Keys == {Admin, Deployer, Viewer}
    && (forall login :: login in teams[Admin] <==>
          exists m :: && m in ms && Named(m, login, users)
                      && (m.org in {Owner, OrgAdmin} || (m.org == PlainMember && m.explicit == Some(Admin))))
    && (forall login :: login in teams[Deployer] <==>
          exists m :: && m in ms && Named(m, login, users) && m.org == PlainMember
                      && (m.explicit == Some(Deployer) || (m.explicit == None && mode == Open)))
    && forall login :: login in teams[Viewer] <==>
         exists m :: && m in ms && Named(m, login, users)
                     && (if m.org == ReadOnly then mode == Open || m.explicit.Some?
                         else m.org == PlainMember && m.explicit == Some(Viewer))
  }

  lemma {:induction false} InSyncByRole(teams: Teams, ms: seq<Member>, mode: Mode, users: set<string>)
    requires InSync(teams, ms, mode, users)
    ensures ByRole(teams, ms, mode, users)
  {
    hide Lower, Entitled, Resolve;
    forall m | m in ms
      ensures RoleOf(m, mode) == Some(Admin) <==> m.org in {Owner, OrgAdmin} || (m.org == PlainMember && m.explicit == Some(Admin))
      ensures RoleOf(m, mode) == Some(Deployer) <==>
              m.org == PlainMember && (m.explicit == Some(Deployer) || (m.explicit == None && mode == Open))
      ensures RoleOf(m, mode) == Some(Viewer) <==>
              if m.org == ReadOnly then mode == Open || m.explicit.Some? else m.org == PlainMember && m.explicit == Some(Viewer)
    {
      ResolveBounds(m.org, mode, m.explicit);
    }
    forall login, role | role in teams
      ensures login in teams[role] <==> exists m :: m in ms && Named(m, login, users) && RoleOf(m, mode) == Some(role)
    {
      EntitledMeans(ms, mode, users, role, login);
    }
  }

  datatype SyncResult = Synced(pending: seq<nat>) | Failed

  /**
   One synchronization of the built-in path. It succeeds exactly when no call fails, and then every team
   holds exactly the existing logins whose role is the team's, and the members waiting for a login are
   exactly those with a role and no existing login. Even when it fails nobody entitled was taken out and
   nobody else put in. On teams that are in step it changes nothing.
   */
  method SyncProject(f: Forge, ms: seq<Member>, mode: Mode, storeFails: bool) returns (r: SyncResult)
    requires f.Valid() && Distinct(ms)
    modifies f
    ensures f.Valid() && f.users == old(f.users) && Harmless(old(f.teams), f.teams, ms, mode, f.users)
    ensures r.Synced? ==> InSync(f.teams, ms, mode, f.users) && r.pending == PendingOf(ms, mode, f.users)
    ensures r.Synced? ==>
              && ByRole(f.teams, ms, mode, f.users)
              && forall id: nat :: id in r.pending <==>
                   exists m :: && m in ms && m.id == id && RoleOf(m, mode).Some?
                               && (m.username.Some? ==> Lower(m.username.value) !in f.users)
    ensures InSync(old(f.teams), ms, mode, f.users) ==> f.edits == old(f.edits)
    ensures f.failed >= old(f.failed) && (r.Synced? <==> !storeFails && f.failed == old(f.failed))
    ensures old(f.faults) == [] ==> f.faults == [] && f.failed == old(f.failed)
  {
    hide Desires, Entitled, InSync, Removing, AddedTo, Harmless, Distinct, PendingOf, ByRole, Resolve, Lower;
    var current: Teams := map[];
    ghost var before := f.teams;
    var aerr, admins := f.TeamMembers(Admin);
    var derr, deployers := f.TeamMembers(Deployer);
    var verr, viewers := f.TeamMembers(Viewer);
    NothingAdded(before, mode, f.users);
    assert ms[..0] == [];
    AddingIsHarmless(before, before, ms, 0, mode, f.users);
    if aerr || derr || verr {
      return Failed;
    }
    current := map[Admin := admins, Deployer := deployers, Viewer := viewers];
    assert current == before;
    var err, desired, pending := AddMembers(f, ms, mode, current);
    ghost var k :| 0 <= k <= |ms| && AddedTo(f.teams, current, ms[..k], mode, f.users);
    AddingIsHarmless(f.teams, current, ms, k, mode, f.users);
    if err {
      return Failed;
    }
    var rerr := RemoveOthers(f, ms, mode, current, desired);
    if rerr || storeFails {
      return Failed;
    }
    InSyncByRole(f.teams, ms, mode, f.users);
    forall id: nat
      ensures id in pending <==>
              exists m :: && m in ms && m.id == id && RoleOf(m, mode).Some?
                          && (m.username.Some? ==> Lower(m.username.value) !in f.users)
    {
      PendingMeans(ms, mode, f.users, id);
    }
    return Synced(pending);
  }

  /** Synchronizing twice in a row changes nothing the second time, and finds the same members pending. */
  method SyncTwice(f: Forge, ms: seq<Member>, mode: Mode) returns (first: SyncResult, second: SyncResult, ghost edits: nat)
    requires f.Valid() && Distinct(ms) && f.faults == []
    modifies f
    ensures first.Synced? && second == first && InSync(f.teams, ms, mode, f.users) && f.edits == edits
  {
    hide InSync, Harmless, PendingOf, Distinct;
    first := SyncProject(f, ms, mode, false);
    edits := f.edits;
    second := SyncProject(f, ms, mode, false);
  }

  /**
   A member with the login of an existing user, entitled to a team by its role, has its place there after a
   synchronization exactly when the login could be looked up.
   */
  lemma {:induction false} FailedLookupRemoves(ms: seq<Member>, i: nat, mode: Mode, users: set<string>, teams: Teams, login: string,
          r: Role)
    requires i < |ms| && Distinct(ms[i := ms[i].(username := Some(login))])
    requires RoleOf(ms[i], mode) == Some(r) && Lower(login) in users
    requires ms[i].username == None || ms[i].username == Some(login)
    requires InSync(teams, ms, mode, users)
    ensures Lower(login) in Entitled(ms[i := ms[i].(username := Some(login))], mode, users, r)
    ensures r in teams && (Lower(login) in teams[r] <==> ms[i].username.Some?)
  {
    var fixed := ms[i := ms[i].(username := Some(login))];
    assert RoleOf(fixed[i], mode) == RoleOf(ms[i], mode);
    assert Login(fixed[i], mode, users) == Some(Lower(login));
    EntitledHas(fixed, i, mode, users);
    assert r == Admin || r == Deployer || r == Viewer;
    if ms[i].username == None {
      OnlyThisName(ms, i, login);
      EntitledAreNames(ms, mode, users, r);
    } else {
      assert fixed == ms;
    }
  }

  // With distinct logins nobody else has this one.
  lemma {:induction false} OnlyThisName(ms: seq<Member>, i: nat, login: string)
    requires i < |ms| && ms[i].username == None && Distinct(ms[i := ms[i].(username := Some(login))])
    ensures Lower(login) !in Names(ms)
  {
    var fixed := ms[i := ms[i].(username := Some(login))];
    var init := ms[..|ms| - 1];
    if i < |ms| - 1 {
      assert fixed[..|ms| - 1] == init[i := init[i].(username := Some(login))];
      OnlyThisName(init, i, login);
      NamesOfFixed(init, i, login);
    } else {
      assert fixed[..|ms| - 1] == init;
    }
  }

  lemma {:induction false} NamesOfFixed(ms: seq<Member>, i: nat, login: string)
    requires i < |ms|
    ensures Lower(login) in Names(ms[i := ms[i].(username := Some(login))])
  {
    var fixed := ms[i := ms[i].(username := Some(login))];
    if i < |ms| - 1 {
      var init := ms[..|ms| - 1];
      assert fixed[..|ms| - 1] == init[i := init[i].(username := Some(login))];
      NamesOfFixed(init, i, login);
    }
  }
}
