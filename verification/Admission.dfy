/** Admission leases: one Redis sorted set per scope, shared by every worker. The two scripts and the removal are
    atomic; requests of any number of clients interleave in any order, and expired members are removed only lazily. */
module Admission {
  import opened Common

  type Token = string

  /** The sorted set with the time at which Redis drops the whole key. */
  datatype Store = Store(scores: map<Token, real>, expiry: Option<real>)

  const EMPTY := Store(map[], None)

  function Ceil(x: real): int { -(-x).Floor }

  /** A dropped key reads as an empty set. */
  function Visible(s: Store, at: real): Store {
    if s.expiry.Some? && s.expiry.value <= at then EMPTY else s
  }

  /** Remove the members whose score is at most `clock`. */
  function Purged(scores: map<Token, real>, clock: real): map<Token, real> {
    map t | t in scores && clock < scores[t] :: scores[t]
  }

  // ---- requests ----

  /** `clock` is the reading of the client's clock that the request carries. */
  datatype Op = Acquire(token: Token, clock: real, limit: int, ttl: real)
              | Refresh(token: Token, clock: real, ttl: real)
              | Release(token: Token)

  /** A request and the server's time when it is executed. */
  datatype Timed = Timed(op: Op, at: real)

  function Added(scores: map<Token, real>, token: Token, score: real, ttl: real, at: real): Store {
    Store(scores[token := score], Some(at + Ceil(ttl * 2.0) as real))
  }

  /** An emptied sorted set is deleted together with its expiry. */
  function Kept(scores: map<Token, real>, expiry: Option<real>): Store {
    Store(scores, if scores == map[] then None else expiry)
  }

  /** One request: the new set, and whether the script answered 1. */
  function Execute(s: Store, r: Timed): (Store, bool) {
    var now := Visible(s, r.at);
    match r.op
    case Acquire(token, clock, limit, ttl) =>
      var live := Purged(now.scores, clock);
      if |live| >= limit then (Kept(live, now.expiry), false)
      else (Added(live, token, clock + ttl, ttl, r.at), true)
    case Refresh(token, clock, ttl) =>
      if token !in now.scores then (now, false)
      else (Added(now.scores, token, clock + ttl, ttl, r.at), true)
    case Release(token) =>
      (Kept(now.scores - {token}, now.expiry), token in now.scores)
  }

  function After(s: Store, run: seq<Timed>): Store {
    if run == [] then s else Execute(After(s, run[..|run| - 1]), run[|run| - 1]).0
  }

  // ---- the bound ----

  predicate Limited(op: Op, limit: int) { op.Acquire? ==> op.limit <= limit }

  ghost predicate AllLimited(run: seq<Timed>, limit: int) {
    forall i :: 0 <= i < |run| ==> Limited(run[i].op, limit)
  }

  lemma SizeOfKeys(a: map<Token, real>, b: map<Token, real>)
    requires a.Keys <= b.Keys
    ensures |a| <= |b|
  {
    SubsetSize(a.Keys, b.Keys);
    assert |a| == |a.Keys| && |b| == |b.Keys|;
  }

  lemma OneMoreKey(scores: map<Token, real>, token: Token, score: real)
    ensures |scores[token := score]| <= |scores| + 1
    ensures token in scores ==> |scores[token := score]| == |scores|
  {
    var more := scores[token := score];
    assert more.Keys == scores.Keys + {token};
    assert |more| == |more.Keys| && |scores| == |scores.Keys|;
    if token in scores {
      assert more.Keys == scores.Keys;
    }
  }

  lemma {:induction false} ExecuteKeepsBound(s: Store, r: Timed, limit: int)
    requires |s.scores| <= limit && 0 <= limit && Limited(r.op, limit)
    ensures |Execute(s, r).0.scores| <= limit
  {
    var now := Visible(s, r.at);
    match r.op {
      case Acquire(token, clock, max, ttl) =>
        var live := Purged(now.scores, clock);
        SizeOfKeys(live, now.scores);
        OneMoreKey(live, token, clock + ttl);
      case Refresh(token, clock, ttl) =>
        OneMoreKey(now.scores, token, clock + ttl);
      case Release(token) =>
        SizeOfKeys(now.scores - {token}, now.scores);
    }
  }

  /** The stored set never exceeds the limit, whatever the clocks, the lifetimes and the order of requests. A refresh
      may revive an expired member, but only one that still counts. */
  lemma {:induction false} NeverOverLimit(s: Store, run: seq<Timed>, limit: int)
    requires |s.scores| <= limit && 0 <= limit && AllLimited(run, limit)
    ensures |After(s, run).scores| <= limit
  {
    if run != [] {
      var n := |run| - 1;
      NeverOverLimit(s, run[..n], limit);
      ExecuteKeepsBound(After(s, run[..n]), run[n], limit);
    }
  }

  /** The leases that are unexpired at a time. */
  function Live(s: Store, at: real): set<Token> {
    set t | t in s.scores && at < s.scores[t]
  }

  lemma LiveLeasesWithinLimit(run: seq<Timed>, limit: int, at: real)
    requires 0 <= limit && AllLimited(run, limit)
    ensures |Live(After(EMPTY, run), at)| <= limit
  {
    NeverOverLimit(EMPTY, run, limit);
    var s := After(EMPTY, run);
    SubsetSize(Live(s, at), s.scores.Keys);
    assert |s.scores| == |s.scores.Keys|;
  }

  // ---- one clock, and lifetimes that are not too different ----

  predicate LifetimeWithin(op: Op, lo: real, hi: real) {
    match op
    case Acquire(_, _, _, ttl) => lo <= ttl <= hi
    case Refresh(_, _, ttl) => lo <= ttl <= hi
    case Release(_) => true
  }

  /** The request was sent before it was executed. */
  predicate SentBefore(r: Timed) {
    match r.op
    case Acquire(_, clock, _, _) => clock <= r.at
    case Refresh(_, clock, _) => clock <= r.at
    case Release(_) => true
  }

  /** Requests are executed in the order of one clock that clients and server share, with lifetimes in a range. */
  ghost predicate OneClock(run: seq<Timed>, lo: real, hi: real) {
    && (forall i, j :: 0 <= i < j < |run| ==> run[i].at <= run[j].at)
    && (forall i :: 0 <= i < |run| ==> SentBefore(run[i]) && LifetimeWithin(run[i].op, lo, hi))
  }

  /** The longest lifetime is at most what the shortest one gives the key. */
  predicate Compatible(lo: real, hi: real) { 0.0 < lo <= hi <= Ceil(lo * 2.0) as real }

  /** One lifetime for everybody is always compatible. */
  lemma OneLifetimeIsCompatible(ttl: real)
    requires 0.0 < ttl
    ensures Compatible(ttl, ttl)
  {
    assert ttl <= ttl * 2.0 <= Ceil(ttl * 2.0) as real;
  }

  /** No member outlives the key, and none was given more than the longest lifetime. */
  ghost predicate KeyOutlives(s: Store, hi: real, last: real) {
    forall t :: t in s.scores ==> s.expiry.Some? && s.scores[t] <= s.expiry.value && s.scores[t] <= last + hi
  }

  lemma CeilRises(a: real, b: real)
    requires a <= b
    ensures Ceil(a) <= Ceil(b)
  {
  }

  lemma ExecuteKeepsKey(s: Store, r: Timed, lo: real, hi: real, last: real)
    requires Compatible(lo, hi) && KeyOutlives(s, hi, last) && last <= r.at
    requires SentBefore(r) && LifetimeWithin(r.op, lo, hi)
    ensures KeyOutlives(Execute(s, r).0, hi, r.at)
  {
    if !r.op.Release? {
      CeilRises(lo * 2.0, r.op.ttl * 2.0);
    }
    hide Ceil;
  }

  /** In every such run the key lasts at least as long as each of its members. */
  lemma {:induction false} KeyOutlivesMembers(run: seq<Timed>, lo: real, hi: real, last: real)
    requires Compatible(lo, hi) && OneClock(run, lo, hi) && (run != [] ==> run[|run| - 1].at <= last)
    ensures KeyOutlives(After(EMPTY, run), hi, last)
  {
    if run != [] {
      var n := |run| - 1;
      OneClockPrefix(run, lo, hi, n);
      KeyOutlivesMembers(run[..n], lo, hi, run[n].at);
      hide Ceil, Compatible;
      ExecuteKeepsKey(After(EMPTY, run[..n]), run[n], lo, hi, run[n].at);
    }
  }

  /** An unexpired lease leaves the set only by its own release: neither a purge nor the dropping of the key takes it.
      */
  lemma OnlyReleaseRemoves(s: Store, r: Timed, hi: real, last: real, token: Token)
    requires KeyOutlives(s, hi, last) && last <= r.at && SentBefore(r)
    requires token in s.scores && r.at < s.scores[token] && r.op != Release(token)
    ensures token in Execute(s, r).0.scores
    ensures r.op.Release? || r.op.token != token || !Execute(s, r).1 ==>
              Execute(s, r).0.scores[token] == s.scores[token]
    ensures r.op.Refresh? && r.op.token == token ==>
              Execute(s, r).1 && Execute(s, r).0.scores[token] == r.op.clock + r.op.ttl
  {
    hide Ceil;
    assert Visible(s, r.at) == s;
  }

  // ---- a holder that refreshes in time ----

  predicate IsRefreshOf(op: Op, token: Token) { op.Refresh? && op.token == token }

  /** When the lease granted at `i` runs out, after the first `k` requests. */
  function Deadline(run: seq<Timed>, i: nat, k: nat): real
    requires i < k <= |run| && run[i].op.Acquire?
  {
    if k == i + 1 then run[i].op.clock + run[i].op.ttl
    else if IsRefreshOf(run[k - 1].op, run[i].op.token) then run[k - 1].op.clock + run[k - 1].op.ttl
    else Deadline(run, i, k - 1)
  }

  /** The request at `i` was granted, and up to `k` its holder did nothing but refresh. */
  ghost predicate Holds(run: seq<Timed>, i: nat, k: nat) {
    && i < k <= |run| && run[i].op.Acquire?
    && Execute(After(EMPTY, run[..i]), run[i]).1
    && forall j :: i < j < k ==> run[j].op.token == run[i].op.token ==> run[j].op.Refresh?
  }

  /** Each refresh of the holder is executed before the lease runs out. */
  ghost predicate Timely(run: seq<Timed>, i: nat, k: nat)
    requires i < |run| && run[i].op.Acquire? && k <= |run|
  {
    forall j :: i < j < k && IsRefreshOf(run[j].op, run[i].op.token) ==> Unexpired(run, i, j)
  }

  /** The request at `j` is executed before the lease runs out. */
  predicate Unexpired(run: seq<Timed>, i: nat, j: nat)
    requires i < j < |run| && run[i].op.Acquire?
  {
    run[j].at < Deadline(run, i, j)
  }

  lemma AfterOneMore(run: seq<Timed>, k: nat)
    requires k < |run|
    ensures After(EMPTY, run[..k + 1]) == Execute(After(EMPTY, run[..k]), run[k]).0
  {
    assert run[..k + 1][..k] == run[..k];
  }

  lemma OneClockPrefix(run: seq<Timed>, lo: real, hi: real, k: nat)
    requires OneClock(run, lo, hi) && k <= |run|
    ensures OneClock(run[..k], lo, hi)
  {
    assert forall i :: 0 <= i < k ==> run[..k][i] == run[i];
  }

  /** What one more request does to an unexpired lease. */
  lemma StillHeld(run: seq<Timed>, lo: real, hi: real, k: nat, token: Token)
    requires Compatible(lo, hi) && OneClock(run, lo, hi) && k < |run|
    requires var s := After(EMPTY, run[..k]); token in s.scores && run[k].at < s.scores[token]
    requires run[k].op != Release(token)
    ensures var s, later := After(EMPTY, run[..k]), After(EMPTY, run[..k + 1]);
            && token in later.scores
            && (run[k].op.Release? || run[k].op.token != token || !Execute(s, run[k]).1 ==>
                  later.scores[token] == s.scores[token])
            && (IsRefreshOf(run[k].op, token) ==>
                  Execute(s, run[k]).1 && later.scores[token] == run[k].op.clock + run[k].op.ttl)
  {
    AfterOneMore(run, k);
    OneClockPrefix(run, lo, hi, k);
    KeyOutlivesMembers(run[..k], lo, hi, run[k].at);
    hide After, Execute, KeyOutlives;
    OnlyReleaseRemoves(After(EMPTY, run[..k]), run[k], hi, run[k].at, token);
  }

  lemma {:induction false} StaysHeld(run: seq<Timed>, lo: real, hi: real, i: nat, k: nat)
    requires Compatible(lo, hi) && OneClock(run, lo, hi) && Holds(run, i, k)
    requires forall j :: i < j < k ==> Unexpired(run, i, j)
    ensures var s := After(EMPTY, run[..k]);
            run[i].op.token in s.scores && s.scores[run[i].op.token] == Deadline(run, i, k)
    decreases k
  {
    hide After, Execute, OneClock;
    if i + 1 < k {
      assert run[k - 1].at < Deadline(run, i, k - 1) by {
        assert Unexpired(run, i, k - 1);
      }
      assert Holds(run, i, k - 1);
      assert run[k - 1].op.token == run[i].op.token ==> run[k - 1].op.Refresh?;
      hide Holds, Unexpired;
      StaysHeld(run, lo, hi, i, k - 1);
      StillHeld(run, lo, hi, k - 1, run[i].op.token);
    } else {
      AfterOneMore(run, i);
      SuccessStores(After(EMPTY, run[..i]), run[i]);
    }
  }

  /** Between two timely refreshes the lease does not run out. */
  lemma {:induction false} AliveBefore(run: seq<Timed>, lo: real, hi: real, i: nat, j: nat, k: nat)
    requires OneClock(run, lo, hi) && Holds(run, i, k) && i < j <= k < |run|
    requires IsRefreshOf(run[k].op, run[i].op.token) && Timely(run, i, k + 1)
    ensures Unexpired(run, i, j)
    decreases k - j
  {
    if !IsRefreshOf(run[j].op, run[i].op.token) {
      AliveBefore(run, lo, hi, i, j + 1, k);
    }
  }

  /** With one clock and compatible lifetimes, a holder that refreshes in time keeps its lease: it is in the set from
      the grant to the last refresh, and no refresh fails. */
  lemma HeartbeatNeverFails(run: seq<Timed>, lo: real, hi: real, i: nat, k: nat)
    requires Compatible(lo, hi) && OneClock(run, lo, hi) && Holds(run, i, k) && k < |run|
    requires IsRefreshOf(run[k].op, run[i].op.token) && Timely(run, i, k + 1)
    ensures Execute(After(EMPTY, run[..k]), run[k]).1
    ensures forall j :: i < j <= k + 1 ==> run[i].op.token in After(EMPTY, run[..j]).scores
  {
    hide After, Execute, OneClock, Deadline;
    forall j | i < j <= k
      ensures Unexpired(run, i, j)
    {
      AliveBefore(run, lo, hi, i, j, k);
    }
    forall j | i < j <= k
      ensures run[i].op.token in After(EMPTY, run[..j]).scores
    {
      StaysHeld(run, lo, hi, i, j);
    }
    StaysHeld(run, lo, hi, i, k);
    StillHeld(run, lo, hi, k, run[i].op.token);
  }

  // ---- many holders ----

  /** The request at `p` was answered with 1. */
  predicate Succeeds(run: seq<Timed>, p: nat)
    requires p < |run|
  {
    Execute(After(EMPTY, run[..p]), run[p]).1
  }

  /** The request at `p` is the last that was granted to its token, nobody released the token since, and by the clock of
      that request the lease lasts beyond `now`: its client may still be working. */
  predicate MayWork(run: seq<Timed>, p: nat, now: real)
    requires p < |run|
  {
    var r := run[p];
    && !r.op.Release? && Succeeds(run, p) && now < r.op.clock + r.op.ttl
    && forall j :: p < j < |run| && run[j].op.token == r.op.token ==> !run[j].op.Release? && !Succeeds(run, j)
  }

  /** The clients that may be working. */
  ghost function Working(run: seq<Timed>, now: real): set<Token> {
    set p | 0 <= p < |run| && MayWork(run, p, now) :: run[p].op.token
  }

  lemma SinceThen(run: seq<Timed>, lo: real, hi: real, p: nat, j: nat, now: real)
    requires p < j < |run| && MayWork(run, p, now) && OneClock(run, lo, hi) && run[|run| - 1].at <= now
    ensures run[j].at < run[p].op.clock + run[p].op.ttl
    ensures run[j].op.token == run[p].op.token ==> !run[j].op.Release? && !Succeeds(run, j)
  {
    hide Succeeds;
    assert run[j].at <= run[|run| - 1].at;
  }

  /** After `k` requests, the lease granted at `p` is in the set, with the score of that request. */
  ghost predicate Stored(run: seq<Timed>, p: nat, k: nat)
    requires p < |run| && k <= |run| && !run[p].op.Release?
  {
    var s := After(EMPTY, run[..k]);
    run[p].op.token in s.scores && s.scores[run[p].op.token] == run[p].op.clock + run[p].op.ttl
  }

  lemma StoredAtOnce(run: seq<Timed>, p: nat)
    requires p < |run| && Succeeds(run, p) && !run[p].op.Release?
    ensures Stored(run, p, p + 1)
  {
    AfterOneMore(run, p);
    hide After;
    SuccessStores(After(EMPTY, run[..p]), run[p]);
  }

  lemma StoredOneMore(run: seq<Timed>, lo: real, hi: real, p: nat, k: nat)
    requires Compatible(lo, hi) && OneClock(run, lo, hi) && p < k < |run| && !run[p].op.Release? && Stored(run, p, k)
    requires run[k].at < run[p].op.clock + run[p].op.ttl
    requires run[k].op.token == run[p].op.token ==> !run[k].op.Release? && !Succeeds(run, k)
    ensures Stored(run, p, k + 1)
  {
    hide After, Execute, OneClock;
    StillHeld(run, lo, hi, k, run[p].op.token);
  }

  lemma {:induction false} HeldSince(run: seq<Timed>, lo: real, hi: real, p: nat, k: nat, now: real)
    requires Compatible(lo, hi) && OneClock(run, lo, hi) && p < k <= |run| && run[|run| - 1].at <= now
    requires !run[p].op.Release? && MayWork(run, p, now)
    ensures Stored(run, p, k)
    decreases k
  {
    hide Stored, OneClock;
    if p + 1 < k {
      HeldSince(run, lo, hi, p, k - 1, now);
      SinceThen(run, lo, hi, p, k - 1, now);
      hide MayWork, Succeeds;
      StoredOneMore(run, lo, hi, p, k - 1);
    } else {
      StoredAtOnce(run, p);
    }
  }

  lemma SuccessStores(s: Store, r: Timed)
    requires Execute(s, r).1 && !r.op.Release?
    ensures var after := Execute(s, r).0;
            r.op.token in after.scores && after.scores[r.op.token] == r.op.clock + r.op.ttl
  {
  }

  /** Clients that were admitted, have not released, and hold an unexpired lease number at most the limit, in every
      run of any number of clients that share one clock and one limit, with compatible lifetimes. */
  lemma HoldersWithinLimit(run: seq<Timed>, lo: real, hi: real, limit: int, now: real)
    requires Compatible(lo, hi) && 0 <= limit && OneClock(run, lo, hi) && AllLimited(run, limit)
    requires run != [] ==> run[|run| - 1].at <= now
    ensures |Working(run, now)| <= limit
  {
    var s := After(EMPTY, run);
    assert run[..|run|] == run;
    NeverOverLimit(EMPTY, run, limit);
    hide After, OneClock;
    var holders := Working(run, now);
    forall t | t in holders
      ensures t in s.scores.Keys
    {
      var p :| 0 <= p < |run| && MayWork(run, p, now) && run[p].op.token == t;
      HeldSince(run, lo, hi, p, |run|, now);
    }
    SubsetSize(holders, s.scores.Keys);
    assert |s.scores| == |s.scores.Keys|;
  }

  // ---- incompatible lifetimes ----

  /** Two leases at time zero; when the shorter one has let the key drop, two more are admitted. */
  function Overbooked(lo: real, hi: real): seq<Timed> {
    var drop := Ceil(lo * 2.0) as real;
    [Timed(Acquire("long", 0.0, 2, hi), 0.0), Timed(Acquire("s", 0.0, 2, lo), 0.0),
     Timed(Acquire("aa", drop, 2, lo), drop), Timed(Acquire("bbb", drop, 2, lo), drop)]
  }

  lemma NothingServed()
    ensures After(EMPTY, []) == EMPTY
  {
  }

  lemma FirstGrant(r: Timed)
    requires r.op.Acquire? && 1 <= r.op.limit
    ensures Execute(EMPTY, r) == (Added(map[], r.op.token, r.op.clock + r.op.ttl, r.op.ttl, r.at), true)
  {
    assert Purged(map[], r.op.clock) == map[];
  }

  lemma FirstTwo(lo: real, hi: real)
    requires 0.0 < lo && Ceil(lo * 2.0) as real < hi
    ensures var run, drop := Overbooked(lo, hi), Ceil(lo * 2.0) as real;
            && After(EMPTY, run[..2]) == Store(map["long" := hi, "s" := lo], Some(drop))
            && Succeeds(run, 0) && Succeeds(run, 1)
  {
    var run := Overbooked(lo, hi);
    assert 0.0 < lo * 2.0 <= Ceil(lo * 2.0) as real && 0.0 < Ceil(hi * 2.0) as real;
    hide After, Ceil;
    AfterOneMore(run, 0);
    FirstGrant(run[0]);
    assert run[..0] == [] && After(EMPTY, []) == EMPTY by { NothingServed(); }
    var first := map["long" := hi];
    AfterOneMore(run, 1);
    assert Purged(first, 0.0) == first && |first| == 1;
  }

  lemma ThirdGrant(lo: real, hi: real)
    requires 0.0 < lo && Ceil(lo * 2.0) as real < hi
    ensures var run, drop := Overbooked(lo, hi), Ceil(lo * 2.0) as real;
            Succeeds(run, 2) && After(EMPTY, run[..3]).scores == map["aa" := drop + lo]
  {
    var run, drop := Overbooked(lo, hi), Ceil(lo * 2.0) as real;
    FirstTwo(lo, hi);
    hide After, Ceil;
    var before := After(EMPTY, run[..2]);
    assert Visible(before, drop) == EMPTY;
    AfterOneMore(run, 2);
    DroppedGrants(before, run[2]);
  }

  lemma DroppedGrants(s: Store, r: Timed)
    requires r.op.Acquire? && 1 <= r.op.limit && Visible(s, r.at) == EMPTY
    ensures Execute(s, r).1 && Execute(s, r).0.scores == map[r.op.token := r.op.clock + r.op.ttl]
  {
    FirstGrant(Timed(r.op, r.at));
    hide Ceil;
  }

  /** While fewer members are stored than the limit, an acquire is granted. */
  lemma RoomGrants(s: Store, r: Timed)
    requires r.op.Acquire? && |s.scores| < r.op.limit
    ensures Execute(s, r).1
  {
    SizeOfKeys(Purged(Visible(s, r.at).scores, r.op.clock), s.scores);
    hide Ceil;
  }

  lemma NextTwo(lo: real, hi: real)
    requires 0.0 < lo && Ceil(lo * 2.0) as real < hi
    ensures Succeeds(Overbooked(lo, hi), 2) && Succeeds(Overbooked(lo, hi), 3)
  {
    ThirdGrant(lo, hi);
    hide After, Ceil, Execute;
    RoomGrants(After(EMPTY, Overbooked(lo, hi)[..3]), Overbooked(lo, hi)[3]);
  }

  lemma OverbookedInOrder(lo: real, hi: real)
    requires 0.0 < lo && Ceil(lo * 2.0) as real < hi
    ensures OneClock(Overbooked(lo, hi), lo, hi) && AllLimited(Overbooked(lo, hi), 2)
  {
    assert lo <= lo * 2.0 <= Ceil(lo * 2.0) as real;
    hide Ceil;
  }

  lemma NamesDiffer()
    ensures "long" != "s" && "long" != "aa" && "long" != "bbb" && "s" != "aa" && "s" != "bbb" && "aa" != "bbb"
  {
    assert |"long"| == 4 && |"s"| == 1 && |"aa"| == 2 && |"bbb"| == 3;
  }

  lemma OverbookedWork(lo: real, hi: real)
    requires 0.0 < lo && Ceil(lo * 2.0) as real < hi
    ensures var run, drop := Overbooked(lo, hi), Ceil(lo * 2.0) as real;
            MayWork(run, 0, drop) && MayWork(run, 2, drop) && MayWork(run, 3, drop)
  {
    FirstTwo(lo, hi);
    NextTwo(lo, hi);
    hide Succeeds, Ceil;
    NamesDiffer();
  }

  /** A short lease's EXPIRE drops the key while a long lease is unexpired: the long lease's refresh is refused, and
      more clients work than the limit allows. */
  lemma MixedLifetimesLoseLeases(lo: real, hi: real)
    requires 0.0 < lo && Ceil(lo * 2.0) as real < hi
    ensures var run, drop := Overbooked(lo, hi), Ceil(lo * 2.0) as real;
            && OneClock(run, lo, hi) && AllLimited(run, 2)
            && "long" in Live(After(EMPTY, run[..2]), drop)
            && !Execute(After(EMPTY, run[..2]), Timed(Refresh("long", drop, hi), drop)).1
            && !BoundKept(run, 2, drop)
  {
    var run, drop := Overbooked(lo, hi), Ceil(lo * 2.0) as real;
    OverbookedInOrder(lo, hi);
    FirstTwo(lo, hi);
    OverbookedWork(lo, hi);
    hide MayWork, After, OneClock, AllLimited, Succeeds;
    assert run[0].op.token in Working(run, drop) && run[2].op.token in Working(run, drop)
           && run[3].op.token in Working(run, drop);
    NamesDiffer();
    hide Working, Overbooked;
    SubsetSize({"long", "aa", "bbb"}, Working(run, drop));
  }

  ghost predicate BoundKept(run: seq<Timed>, limit: int, now: real) { |Working(run, now)| <= limit }

  /** The request that comes next. */
  ghost predicate LeaseKept(run: seq<Timed>, r: Timed, token: Token) {
    token in Live(After(EMPTY, run), r.at) && r.op != Release(token) ==> token in Execute(After(EMPTY, run), r).0.scores
  }

  /** No run with these lifetimes lets more clients work than the limit. */
  ghost predicate NeverOverbooked(lo: real, hi: real) {
    forall run: seq<Timed>, limit: int, now: real :: Served(run, lo, hi, limit, now) ==> BoundKept(run, limit, now)
  }

  ghost predicate Served(run: seq<Timed>, lo: real, hi: real, limit: int, now: real) {
    0 <= limit && OneClock(run, lo, hi) && AllLimited(run, limit) && (run != [] ==> run[|run| - 1].at <= now)
  }

  /** No run with these lifetimes loses an unexpired lease but by its release. */
  ghost predicate NeverLost(lo: real, hi: real) {
    forall run: seq<Timed>, r: Timed, token: Token :: OneClock(run + [r], lo, hi) ==> LeaseKept(run, r, token)
  }

  /** Either guarantee holds exactly when the lifetimes are compatible. */
  lemma CompatibleExactly(lo: real, hi: real)
    requires 0.0 < lo <= hi
    ensures NeverOverbooked(lo, hi) <==> Compatible(lo, hi)
    ensures NeverLost(lo, hi) <==> Compatible(lo, hi)
  {
    if Compatible(lo, hi) {
      forall run: seq<Timed>, limit: int, now: real | Served(run, lo, hi, limit, now)
        ensures BoundKept(run, limit, now)
      {
        HoldersWithinLimit(run, lo, hi, limit, now);
      }
      forall run: seq<Timed>, r: Timed, token: Token | OneClock(run + [r], lo, hi)
        ensures LeaseKept(run, r, token)
      {
        UnexpiredIsKept(run, r, lo, hi, token);
      }
    } else {
      var run, drop := Overbooked(lo, hi), Ceil(lo * 2.0) as real;
      MixedLifetimesLoseLeases(lo, hi);
      RefusedIsLost(lo, hi);
      hide OneClock, AllLimited, BoundKept, LeaseKept;
      assert Served(run, lo, hi, 2, drop);
    }
  }

  /** One lifetime for everybody, as it is configured, gives both guarantees. */
  lemma OneLifetimeSuffices(ttl: real)
    requires 0.0 < ttl
    ensures NeverOverbooked(ttl, ttl) && NeverLost(ttl, ttl)
  {
    OneLifetimeIsCompatible(ttl);
    CompatibleExactly(ttl, ttl);
  }

  lemma UnexpiredIsKept(run: seq<Timed>, r: Timed, lo: real, hi: real, token: Token)
    requires Compatible(lo, hi) && OneClock(run + [r], lo, hi)
    ensures LeaseKept(run, r, token)
  {
    var longer, n := run + [r], |run|;
    assert longer[n] == r && longer[..n] == run;
    assert run != [] ==> run[n - 1] == longer[n - 1];
    OneClockPrefix(longer, lo, hi, n);
    KeyOutlivesMembers(run, lo, hi, r.at);
    hide After, Execute, OneClock, KeyOutlives;
    if token in Live(After(EMPTY, run), r.at) && r.op != Release(token) {
      assert SentBefore(r) by { LastIsSent(run, r, lo, hi); }
      OnlyReleaseRemoves(After(EMPTY, run), r, hi, r.at, token);
    }
  }

  lemma LastIsSent(run: seq<Timed>, r: Timed, lo: real, hi: real)
    requires OneClock(run + [r], lo, hi)
    ensures SentBefore(r)
  {
    assert (run + [r])[|run|] == r;
  }

  lemma RefusedIsLost(lo: real, hi: real)
    requires 0.0 < lo && Ceil(lo * 2.0) as real < hi
    ensures var run, drop := Overbooked(lo, hi)[..2], Ceil(lo * 2.0) as real;
            var r := Timed(Refresh("long", drop, hi), drop);
            OneClock(run + [r], lo, hi) && !LeaseKept(run, r, "long")
  {
    FirstTwo(lo, hi);
    OverbookedInOrder(lo, hi);
    var run, drop := Overbooked(lo, hi), Ceil(lo * 2.0) as real;
    hide After, Succeeds, Ceil;
    assert run[0] == run[..2][0] && run[1] == run[..2][1];
  }
}
