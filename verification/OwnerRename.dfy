/** The owner migration script: audit of a mapping from legacy owners to identities, then the rename of every owner
    in place, one after the other. */
module OwnerRename {
  import opened Common

  datatype Identity = Identity(issuer: string, subject: string)

  /** The external mapping, and the hash behind identity ids (arbitrary). */
  datatype Mapping = Mapping(items: map<string, Identity>, digest: Identity -> string)
  {
    function OidcUserId(identity: Identity): string { "oidc:" + digest(identity) }

    /** An owner is looked up under its own id, then under its id without the quarantine prefix. */
    function Target(owner: string): Option<string> {
      var bare := RemovePrefix("quarantine:", owner);
      if owner in items then Some(OidcUserId(items[owner]))
      else if bare in items then Some(OidcUserId(items[bare]))
      else None
    }

    predicate Quarantines(owner: string) {
      Target(owner).None? && !IsSystemOwner(owner)
    }

    /** What the migration is meant to do to one owner. */
    function Rename(owner: string): string {
      match Target(owner)
      case Some(target) => target
      case None => if Quarantines(owner) then "quarantine:" + owner else owner
    }
  }

  predicate StartsWith(prefix: string, s: string) { prefix <= s }

  function RemovePrefix(prefix: string, s: string): string {
    if prefix <= s then s[|prefix|..] else s
  }

  predicate IsSystemOwner(owner: string) {
    || StartsWith("oidc:", owner) || StartsWith("service:", owner)
    || StartsWith("dev-local", owner) || StartsWith("quarantine:", owner)
  }

  // ---- audit ----

  datatype Collision = SharedTarget(target: string) | TargetExists(target: string)

  datatype Change = Change(from: string, to: string)

  datatype Report = Report(mapped: seq<Change>, quarantined: seq<string>, collisions: set<Collision>)

  ghost function MappedOf(m: Mapping, users: seq<string>): seq<Change> {
    if users == [] then []
    else
      var last := users[|users| - 1];
      MappedOf(m, users[..|users| - 1]) + if m.Target(last).Some? then [Change(last, m.Target(last).value)] else []
  }

  ghost function QuarantinedOf(m: Mapping, users: seq<string>): seq<string> {
    if users == [] then []
    else
      var last := users[|users| - 1];
      QuarantinedOf(m, users[..|users| - 1]) + if m.Quarantines(last) then [last] else []
  }

  /** What "no collision" means: no two users share a target, and a target that already exists is the user itself. */
  ghost predicate CollisionFree(m: Mapping, users: seq<string>) {
    && (forall u, v :: u in users && v in users && u != v && m.Target(u).Some? ==> m.Target(u) != m.Target(v))
    && (forall u :: u in users && m.Target(u).Some? && m.Target(u).value in users ==> m.Target(u).value == u)
  }

  function Get(targets: map<string, string>, owner: string): Option<string> {
    if owner in targets then Some(targets[owner]) else None
  }

  /** The targets found so far are those of the users seen so far. */
  ghost predicate TargetsOf(m: Mapping, users: seq<string>, targets: map<string, string>) {
    && (forall u :: u in targets <==> u in users && m.Target(u).Some?)
    && (forall u :: u in targets ==> m.Target(u) == Some(targets[u]))
  }

  ghost predicate Unshared(targets: map<string, string>) {
    forall u, v :: u in targets && v in targets && u != v ==> targets[u] != targets[v]
  }

  lemma OneMoreUser(m: Mapping, before: seq<string>, owner: string, targets: map<string, string>)
    requires TargetsOf(m, before, targets) && owner !in before
    ensures owner !in targets
    ensures m.Target(owner).Some? ==> TargetsOf(m, before + [owner], targets[owner := m.Target(owner).value])
    ensures m.Target(owner).None? ==> TargetsOf(m, before + [owner], targets)
    ensures MappedOf(m, before + [owner]) ==
            MappedOf(m, before) + if m.Target(owner).Some? then [Change(owner, m.Target(owner).value)] else []
    ensures QuarantinedOf(m, before + [owner]) ==
            QuarantinedOf(m, before) + if m.Quarantines(owner) then [owner] else []
  {
    assert (before + [owner])[..|before|] == before;
  }

  method Audit(users: seq<string>, m: Mapping) returns (report: Report)
    requires Distinct(users)
    ensures report.mapped == MappedOf(m, users)
    ensures report.quarantined == QuarantinedOf(m, users)
    ensures report.collisions == {} <==> CollisionFree(m, users)
  {
    assert users[..0] == [] && TargetsOf(m, [], map[]) && Unshared(map[]);
    assert MappedOf(m, []) == [] && QuarantinedOf(m, []) == [];
    hide MappedOf, QuarantinedOf, CollisionFree, Unshared, TargetsOf;
    var targets: map<string, string> := map[];
    var mapped: seq<Change> := [];
    var quarantined: seq<string> := [];
    var collisions: set<Collision> := {};
    for i := 0 to |users|
      invariant mapped == MappedOf(m, users[..i])
      invariant quarantined == QuarantinedOf(m, users[..i])
      invariant TargetsOf(m, users[..i], targets)
      invariant collisions == {} <==> Unshared(targets)
    {
      var legacyId := users[i];
      assert users[..i + 1] == users[..i] + [legacyId] && legacyId !in users[..i];
      OneMoreUser(m, users[..i], legacyId, targets);
      match m.Target(legacyId)
      case Some(target) =>
        if target in targets.Values && Get(targets, legacyId) != Some(target) {
          collisions := collisions + {SharedTarget(target)};
        }
        UnsharedExtends(targets, legacyId, target);
        targets := targets[legacyId := target];
        mapped := mapped + [Change(legacyId, target)];
      case None =>
        if !IsSystemOwner(legacyId) {
          quarantined := quarantined + [legacyId];
        }
    }
    assert users[..|users|] == users;
    var existing := CheckExisting(users, targets);
    report := Report(mapped, quarantined, collisions + existing);
    assert collisions + existing == {} <==> collisions == {} && existing == {};
    FreeByTargets(m, users, targets);
  }

  method CheckExisting(users: seq<string>, targets: map<string, string>) returns (collisions: set<Collision>)
    ensures collisions == {} <==> forall u :: u in targets && targets[u] in users ==> targets[u] == u
  {
    collisions := {};
    var pending := targets.Keys;
    while pending != {}
      invariant pending <= targets.Keys
      invariant collisions == {} <==>
                forall u :: u in targets && u !in pending && targets[u] in users ==> targets[u] == u
    {
      var u :| u in pending;
      if targets[u] in users && targets[u] != u {
        collisions := collisions + {TargetExists(targets[u])};
      }
      pending := pending - {u};
    }
  }

  lemma UnsharedExtends(targets: map<string, string>, owner: string, target: string)
    requires owner !in targets
    ensures Unshared(targets[owner := target]) <==> Unshared(targets) && target !in targets.Values
  {
    var after := targets[owner := target];
    if Unshared(after) {
      forall u, v | u in targets && v in targets && u != v ensures targets[u] != targets[v] {
        assert after[u] == targets[u] && after[v] == targets[v];
      }
      forall u | u in targets ensures targets[u] != target {
        assert after[u] == targets[u] && after[owner] == target;
      }
    }
  }

  lemma FreeByTargets(m: Mapping, users: seq<string>, targets: map<string, string>)
    requires TargetsOf(m, users, targets)
    ensures CollisionFree(m, users) <==>
            Unshared(targets) && forall u :: u in targets && targets[u] in users ==> targets[u] == u
  {
    if Unshared(targets) {
      forall u, v | u in users && v in users && u != v && m.Target(u).Some? ensures m.Target(u) != m.Target(v) {
        assert u in targets;
        assert m.Target(v).Some? ==> v in targets;
      }
    }
  }

  // ---- the sequential rename ----

  ghost function RenameOne(c: Change, owner: string): string { if owner == c.from then c.to else owner }

  /** What happens to one stored owner when the changes are applied one after the other. */
  ghost function Sequentially(changes: seq<Change>, owner: string): string {
    if changes == [] then owner
    else RenameOne(changes[|changes| - 1], Sequentially(changes[..|changes| - 1], owner))
  }

  ghost function UsersAfter(changes: seq<Change>, users: set<string>): set<string> {
    if changes == [] then users
    else
      var c, before := changes[|changes| - 1], UsersAfter(changes[..|changes| - 1], users);
      if c.from == c.to then before else before + {c.to} - {c.from}
  }

  function QuarantineChanges(owners: seq<string>): seq<Change> {
    if owners == [] then []
    else
      var last := owners[|owners| - 1];
      QuarantineChanges(owners[..|owners| - 1]) + [Change(last, "quarantine:" + last)]
  }

  /** The whole plan: mapped owners first, then the quarantined ones. */
  ghost function PlanOf(m: Mapping, users: seq<string>): seq<Change> {
    MappedOf(m, users) + QuarantineChanges(QuarantinedOf(m, users))
  }

  type Table = map<nat, string>

  ghost predicate Renamed(before: Table, after: Table, changes: seq<Change>) {
    && after.Keys == before.Keys
    && forall r :: r in before ==> after[r] == Sequentially(changes, before[r])
  }

  /** UPDATE table SET user_id = to WHERE user_id = from */
  function Update(t: Table, from: string, to: string): Table {
    map r | r in t :: if t[r] == from then to else t[r]
  }

  lemma RenameNext(before: Table, t: Table, changes: seq<Change>, c: Change)
    requires Renamed(before, t, changes)
    ensures Renamed(before, Update(t, c.from, c.to), changes + [c])
    ensures c.from == c.to ==> Renamed(before, t, changes + [c])
  {
    assert (changes + [c])[..|changes|] == changes;
  }

  lemma RenameNone(t: Table)
    ensures Renamed(t, t, [])
  {
  }

  lemma UsersNone(users: set<string>)
    ensures UsersAfter([], users) == users
  {
  }

  lemma UsersNext(changes: seq<Change>, c: Change, users: set<string>)
    ensures UsersAfter(changes + [c], users) ==
            if c.from == c.to then UsersAfter(changes, users) else UsersAfter(changes, users) + {c.to} - {c.from}
  {
    assert (changes + [c])[..|changes|] == changes;
  }

  class OwnerDatabase {
    var users: set<string>
    var conversations: Table
    var caseStates: Table
    var agentRuns: Table
    var feedback: Table

    /** Audits, then applies the plan owner by owner; a collision stops it before any change.  `ordered` is the user
        table in primary-key order. */
    method Apply(ordered: seq<string>, m: Mapping) returns (applied: bool)
      requires Distinct(ordered) && forall u :: u in ordered <==> u in users
      modifies this
      ensures applied <==> CollisionFree(m, ordered)
      ensures !applied ==> unchanged(this)
      ensures applied ==>
                && users == UsersAfter(PlanOf(m, ordered), old(users))
                && Renamed(old(conversations), conversations, PlanOf(m, ordered))
                && Renamed(old(caseStates), caseStates, PlanOf(m, ordered))
                && Renamed(old(agentRuns), agentRuns, PlanOf(m, ordered))
                && Renamed(old(feedback), feedback, PlanOf(m, ordered))
    {
      hide Renamed, UsersAfter, CollisionFree;
      var report := Audit(ordered, m);
      if report.collisions != {} {
        return false;
      }
      var changes := report.mapped + QuarantineChanges(report.quarantined);
      RenameNone(conversations);
      RenameNone(caseStates);
      RenameNone(agentRuns);
      RenameNone(feedback);
      UsersNone(users);
      for i := 0 to |changes|
        invariant users == UsersAfter(changes[..i], old(users))
        invariant Renamed(old(conversations), conversations, changes[..i])
        invariant Renamed(old(caseStates), caseStates, changes[..i])
        invariant Renamed(old(agentRuns), agentRuns, changes[..i])
        invariant Renamed(old(feedback), feedback, changes[..i])
      {
        var c := changes[i];
        assert changes[..i + 1] == changes[..i] + [c];
        RenameNext(old(conversations), conversations, changes[..i], c);
        RenameNext(old(caseStates), caseStates, changes[..i], c);
        RenameNext(old(agentRuns), agentRuns, changes[..i], c);
        RenameNext(old(feedback), feedback, changes[..i], c);
        UsersNext(changes[..i], c, old(users));
        if c.from != c.to {
          if c.to !in users {
            users := users + {c.to};
          }
          conversations := Update(conversations, c.from, c.to);
          caseStates := Update(caseStates, c.from, c.to);
          agentRuns := Update(agentRuns, c.from, c.to);
          feedback := Update(feedback, c.from, c.to);
          if c.from in users {
            users := users - {c.from};
          }
        }
      }
      assert changes[..|changes|] == changes;
      applied := true;
    }
  }

  // ---- one after the other is all at once ----

  lemma {:induction false} MappedMembers(m: Mapping, users: seq<string>, i: nat)
    requires i < |MappedOf(m, users)|
    ensures var c := MappedOf(m, users)[i]; c.from in users && m.Target(c.from) == Some(c.to)
  {
    var front := users[..|users| - 1];
    if i < |MappedOf(m, front)| {
      MappedMembers(m, front, i);
    }
  }

  lemma {:induction false} MappedComplete(m: Mapping, users: seq<string>, u: string)
    requires u in users && m.Target(u).Some?
    ensures Change(u, m.Target(u).value) in MappedOf(m, users)
  {
    var front := users[..|users| - 1];
    if u in front {
      MappedComplete(m, front, u);
    }
  }

  lemma {:induction false} QuarantinedMembers(m: Mapping, users: seq<string>, u: string)
    ensures u in QuarantinedOf(m, users) <==> u in users && m.Quarantines(u)
  {
    if users != [] {
      QuarantinedMembers(m, users[..|users| - 1], u);
      assert users == users[..|users| - 1] + [users[|users| - 1]];
    }
  }

  lemma {:induction false} QuarantineChangeMembers(owners: seq<string>)
    ensures |QuarantineChanges(owners)| == |owners|
    ensures forall i :: 0 <= i < |owners| ==>
              QuarantineChanges(owners)[i] == Change(owners[i], "quarantine:" + owners[i])
  {
    if owners != [] {
      QuarantineChangeMembers(owners[..|owners| - 1]);
    }
  }

  /** No change renames to an id that a later change renames from. */
  ghost predicate NoChain(changes: seq<Change>) {
    forall i, j :: 0 <= i < j < |changes| ==> changes[i].to == changes[j].from ==> changes[i].from == changes[i].to
  }

  /** All changes agree with one renaming. */
  ghost predicate Follows(changes: seq<Change>, rename: string -> string) {
    forall i :: 0 <= i < |changes| ==> changes[i].to == rename(changes[i].from)
  }

  ghost predicate Touches(changes: seq<Change>, owner: string) {
    exists i :: 0 <= i < |changes| && changes[i].from == owner
  }

  lemma {:induction false} SequentialIsSimultaneous(changes: seq<Change>, rename: string -> string, owner: string)
    requires NoChain(changes) && Follows(changes, rename)
    ensures Sequentially(changes, owner) == if Touches(changes, owner) then rename(owner) else owner
  {
    if changes != [] {
      var front, last := changes[..|changes| - 1], changes[|changes| - 1];
      assert forall i :: 0 <= i < |front| ==> front[i] == changes[i];
      SequentialIsSimultaneous(front, rename, owner);
      if i :| 0 <= i < |changes| && changes[i].from == owner {
        assert i == |front| || front[i].from == owner;
      }
      if Touches(front, owner) {
        var i :| 0 <= i < |front| && front[i].from == owner;
        assert changes[i].from == owner && changes[i].to == rename(owner);
      } else if last.from == owner {
        assert changes[|changes| - 1].from == owner;
      }
    }
  }

  lemma PlanFacts(m: Mapping, users: seq<string>)
    requires CollisionFree(m, users)
    ensures NoChain(PlanOf(m, users)) && Follows(PlanOf(m, users), o => m.Rename(o))
    ensures forall o :: Touches(PlanOf(m, users), o) <==> o in users && (m.Target(o).Some? || m.Quarantines(o))
    ensures forall i :: 0 <= i < |PlanOf(m, users)| ==> PlanOf(m, users)[i].from in users
  {
    var mapped, owners, plan := MappedOf(m, users), QuarantinedOf(m, users), PlanOf(m, users);
    var tail := QuarantineChanges(owners);
    QuarantineChangeMembers(owners);
    forall i | 0 <= i < |plan|
      ensures plan[i].from in users && plan[i].to == m.Rename(plan[i].from)
      ensures i < |mapped| ==> m.Target(plan[i].from) == Some(plan[i].to)
      ensures i >= |mapped| ==> m.Quarantines(plan[i].from) && plan[i].to == "quarantine:" + plan[i].from
    {
      if i < |mapped| {
        MappedMembers(m, users, i);
      } else {
        assert plan[i] == tail[i - |mapped|];
        assert owners[i - |mapped|] in owners;
        QuarantinedMembers(m, users, owners[i - |mapped|]);
      }
    }
    forall i, j | 0 <= i < j < |plan| && plan[i].to == plan[j].from
      ensures plan[i].from == plan[i].to
    {
      if i >= |mapped| {
        assert StartsWith("quarantine:", plan[j].from);
      }
    }
    PlanTouches(m, users);
  }

  lemma PlanTouches(m: Mapping, users: seq<string>)
    ensures forall o :: o in users && (m.Target(o).Some? || m.Quarantines(o)) ==> Touches(PlanOf(m, users), o)
  {
    var mapped, owners, plan := MappedOf(m, users), QuarantinedOf(m, users), PlanOf(m, users);
    var tail := QuarantineChanges(owners);
    QuarantineChangeMembers(owners);
    forall o | o in users && (m.Target(o).Some? || m.Quarantines(o))
      ensures Touches(plan, o)
    {
      if o in users && m.Target(o).Some? {
        MappedComplete(m, users, o);
        var i :| 0 <= i < |mapped| && mapped[i] == Change(o, m.Target(o).value);
        assert plan[i].from == o;
      } else if o in users && m.Quarantines(o) {
        QuarantinedMembers(m, users, o);
        var i :| 0 <= i < |owners| && owners[i] == o;
        assert tail[i].from == o;
        assert plan[|mapped| + i] == tail[i];
      }
    }
  }

  /** Without collisions the sequential rename is one simultaneous renaming of the owners that are users. */
  lemma PlanRenamesAtOnce(m: Mapping, users: seq<string>, owner: string)
    requires CollisionFree(m, users)
    ensures Sequentially(PlanOf(m, users), owner) == if owner in users then m.Rename(owner) else owner
  {
    PlanFacts(m, users);
    SequentialIsSimultaneous(PlanOf(m, users), o => m.Rename(o), owner);
  }

  // ---- when the renaming keeps owners apart ----

  ghost predicate Injective(m: Mapping, users: seq<string>) {
    forall u, v :: u in users && v in users && m.Rename(u) == m.Rename(v) ==> u == v
  }

  /** An owner about to be quarantined whose quarantine id is already taken by a user that stays. */
  predicate QuarantineTaken(m: Mapping, users: seq<string>, u: string) {
    u in users && m.Quarantines(u) && ("quarantine:" + u) in users && m.Target("quarantine:" + u).None?
  }

  /** The audit's own checks leave exactly one way for two owners to be merged. */
  lemma InjectiveExactly(m: Mapping, users: seq<string>)
    requires CollisionFree(m, users)
    ensures Injective(m, users) <==> !exists u :: QuarantineTaken(m, users, u)
  {
    if u :| QuarantineTaken(m, users, u) {
      var q := "quarantine:" + u;
      assert StartsWith("quarantine:", q);
      assert m.Rename(q) == q == m.Rename(u);
      assert |q| > |u|;
    }
    hide QuarantineTaken, StartsWith, CollisionFree;
    forall u, v | u in users && v in users && m.Rename(u) == m.Rename(v) && u != v
      ensures QuarantineTaken(m, users, u) || QuarantineTaken(m, users, v)
    {
      MergeIsQuarantine(m, users, u, v);
    }
  }

  lemma MergeIsQuarantine(m: Mapping, users: seq<string>, u: string, v: string)
    requires CollisionFree(m, users) && u in users && v in users && m.Rename(u) == m.Rename(v) && u != v
    ensures QuarantineTaken(m, users, u) || QuarantineTaken(m, users, v)
  {
    RenameShapes(m, u);
    RenameShapes(m, v);
    assert ("quarantine:" + u)[|"quarantine:"|..] == u && ("quarantine:" + v)[|"quarantine:"|..] == v;
  }

  lemma RenameShapes(m: Mapping, u: string)
    ensures m.Target(u).Some? ==> m.Rename(u)[..1] == "o"
    ensures m.Target(u).None? && m.Quarantines(u) ==> m.Rename(u)[..1] == "q"
    ensures m.Target(u).None? && !m.Quarantines(u) ==> m.Rename(u) == u
  {
  }

  /** No user under both an id and its quarantine id is enough. */
  lemma NoTwinsSuffice(m: Mapping, users: seq<string>)
    requires CollisionFree(m, users)
    requires forall u :: u in users ==> ("quarantine:" + u) !in users
    ensures Injective(m, users)
  {
    InjectiveExactly(m, users);
  }

  /** After the migration two rows, of any of the tables, share an owner exactly when they did before. */
  lemma SharingIsKept(m: Mapping, users: seq<string>, t: Table, t': Table, s: Table, s': Table, r: nat, q: nat)
    requires CollisionFree(m, users) && Injective(m, users)
    requires Renamed(t, t', PlanOf(m, users)) && Renamed(s, s', PlanOf(m, users))
    requires r in t && q in s && t[r] in users && s[q] in users
    ensures |t'| == |t| && |s'| == |s|
    ensures t'[r] == s'[q] <==> t[r] == s[q]
  {
    PlanRenamesAtOnce(m, users, t[r]);
    PlanRenamesAtOnce(m, users, s[q]);
    assert |t'.Keys| == |t'| && |t.Keys| == |t| && |s'.Keys| == |s'| && |s.Keys| == |s|;
  }

  /** A merge the audit does not report: an owner whose quarantine id is already a user. */
  lemma UnreportedMerge()
    ensures exists m: Mapping, users: seq<string> ::
              CollisionFree(m, users) && Distinct(users) && !Injective(m, users)
  {
    var m := Mapping(map[], i => "");
    var users := ["a", "quarantine:a"];
    assert StartsWith("quarantine:", users[1]);
    assert m.Target("a").None? && m.Target("quarantine:a").None?;
    assert "quarantine:" + "a" == "quarantine:a";
    assert m.Quarantines("a");
    assert m.Rename("a") == "quarantine:a" == m.Rename("quarantine:a");
    assert users[0] in users && users[1] in users;
    assert "a" != "quarantine:a" by { assert |"a"| != |"quarantine:a"|; }
    assert !Injective(m, users);
  }

  // ---- the user table ----

  /** The users afterwards are the renamed users. */
  lemma UsersAreRenamed(m: Mapping, users: seq<string>, before: set<string>)
    requires CollisionFree(m, users) && forall u :: u in users <==> u in before
    ensures UsersAfter(PlanOf(m, users), before) == set u | u in before :: m.Rename(u)
  {
    var plan := PlanOf(m, users);
    PlanFacts(m, users);
    forall u | u in before ensures Sequentially(plan, u) == m.Rename(u) {
      PlanRenamesAtOnce(m, users, u);
    }
    forall x ensures x in UsersAfter(plan, before) <==> x in set u | u in before :: m.Rename(u) {
      UserSurvives(plan, before, x, o => m.Rename(o));
    }
  }

  lemma {:induction false} UserSurvives(changes: seq<Change>, before: set<string>, x: string, rename: string -> string)
    requires NoChain(changes) && Follows(changes, rename)
    requires forall i :: 0 <= i < |changes| ==> changes[i].from in before
    ensures x in UsersAfter(changes, before) <==> exists u :: u in before && Sequentially(changes, u) == x
  {
    if changes == [] {
      assert forall u :: Sequentially(changes, u) == u;
    } else {
      var front, last := changes[..|changes| - 1], changes[|changes| - 1];
      assert forall i :: 0 <= i < |front| ==> front[i] == changes[i];
      UserSurvives(front, before, x, rename);
      UserSurvives(front, before, last.from, rename);
      UserSurvives(front, before, last.to, rename);
      SequentialIsSimultaneous(front, rename, last.from);
      assert Sequentially(front, last.from) == last.from || Sequentially(front, last.from) == last.to;
      assert forall u :: Sequentially(changes, u) == RenameOne(last, Sequentially(front, u));
      if x in UsersAfter(changes, before) {
        if x != last.to || last.from == last.to {
          var u :| u in before && Sequentially(front, u) == x;
          assert Sequentially(changes, u) == x;
        } else {
          assert Sequentially(changes, last.from) == x;
        }
      }
    }
  }

  // ---- a second run ----

  /** With a mapping keyed by legacy owners only, a second audit finds nothing to map or quarantine. */
  lemma RenameIsIdempotent(m: Mapping, u: string)
    requires forall k :: k in m.items ==> !StartsWith("oidc:", k) && !StartsWith("quarantine:", k)
    ensures m.Target(m.Rename(u)).None? && !m.Quarantines(m.Rename(u))
    ensures m.Rename(m.Rename(u)) == m.Rename(u)
  {
    var v := m.Rename(u);
    if m.Target(u).Some? {
      assert StartsWith("oidc:", v);
      assert v[0] == 'o' && !StartsWith("quarantine:", v);
    } else if m.Quarantines(u) {
      assert StartsWith("quarantine:", v);
      assert RemovePrefix("quarantine:", v) == u;
    }
  }
}
