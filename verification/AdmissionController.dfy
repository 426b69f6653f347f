/** The sorted set as Redis changes it in place, and the controller that a worker uses. Between two steps of a worker
    the other workers do what they like; a reply can be lost before or after its script ran. */
module AdmissionController {
  import opened Common
  import opened Admission

  class LeaseSet {
    var scores: map<Token, real>
    var expiry: Option<real>

    ghost function State(): Store
      reads this
    {
      Store(scores, expiry)
    }

    constructor ()
      ensures State() == EMPTY
    {
      scores, expiry := map[], None;
    }

    method DropIfExpired(at: real)
      modifies this
      ensures State() == Visible(old(State()), at)
    {
      if expiry.Some? && expiry.value <= at {
        scores, expiry := map[], None;
      }
    }

    method ZRemRangeByScore(max: real)
      modifies this
      ensures State() == Kept(Purged(old(scores), max), old(expiry))
    {
      scores := map t | t in scores && max < scores[t] :: scores[t];
      if scores == map[] {
        expiry := None;
      }
    }

    method ZAdd(score: real, token: Token)
      modifies this
      ensures State() == Store(old(scores)[token := score], old(expiry))
    {
      scores := scores[token := score];
    }

    method Expire(seconds: int, at: real)
      modifies this
      ensures State() == Store(old(scores), Some(at + seconds as real))
    {
      expiry := Some(at + seconds as real);
    }

    /** The acquire script. */
    method EvalAcquire(clock: real, expiresAt: real, limit: int, token: Token, ttl: real, at: real) returns (reply: int)
      requires expiresAt == clock + ttl
      modifies this
      ensures (State(), reply == 1) == Execute(old(State()), Timed(Acquire(token, clock, limit, ttl), at))
      ensures reply in {0, 1}
    {
      DropIfExpired(at);
      ZRemRangeByScore(clock);
      if |scores| >= limit {
        return 0;
      }
      ZAdd(expiresAt, token);
      Expire(Ceil(ttl * 2.0), at);
      reply := 1;
    }

    /** The refresh script: it asks whether the token is a member, not whether it is unexpired. */
    method EvalRefresh(token: Token, expiresAt: real, ttl: real, at: real) returns (reply: int)
      modifies this
      ensures (State(), reply == 1) == Execute(old(State()), Timed(Refresh(token, expiresAt - ttl, ttl), at))
      ensures reply in {0, 1}
    {
      DropIfExpired(at);
      if token !in scores {
        return 0;
      }
      ZAdd(expiresAt, token);
      Expire(Ceil(ttl * 2.0), at);
      reply := 1;
    }

    method ZRem(token: Token, at: real)
      modifies this
      ensures State() == Execute(old(State()), Timed(Release(token), at)).0
    {
      DropIfExpired(at);
      scores := scores - {token};
      if scores == map[] {
        expiry := None;
      }
    }

    /** What other workers do to the set, in any order. */
    method Serve(run: seq<Timed>)
      modifies this
      ensures State() == After(old(State()), run)
    {
      for i := 0 to |run|
        invariant State() == After(old(State()), run[..i])
      {
        assert run[..i + 1][..i] == run[..i];
        match run[i].op {
          case Acquire(token, clock, limit, ttl) =>
            var reply := EvalAcquire(clock, clock + ttl, limit, token, ttl, run[i].at);
          case Refresh(token, clock, ttl) =>
            var reply := EvalRefresh(token, clock + ttl, ttl, run[i].at);
          case Release(token) =>
            ZRem(token, run[i].at);
        }
      }
      assert run[..|run|] == run;
    }
  }

  datatype Lease = Lease(token: Token, ttl: real)

  datatype AcquireResult = BadArguments | Unavailable | Refused | Granted(lease: Lease)

  datatype HeartbeatEnd = BadInterval | LeaseLost | RefreshFailed | Cancelled

  /** What happens around one request: what other workers do before it, when it is sent and executed, how long it takes,
      and whether it fails before or after its script ran. */
  datatype Fate = Answered | NeverSent | ReplyLost

  datatype Trip = Trip(others: seq<Timed>, clock: real, at: real, elapsed: real, fate: Fate)

  function OwnAcquire(t: Trip, limit: int, ttl: real, token: Token): Timed {
    Timed(Op.Acquire(token, t.clock, limit, ttl), t.at)
  }

  function OwnRefresh(t: Trip, lease: Lease): Timed { Timed(Op.Refresh(lease.token, t.clock, lease.ttl), t.at) }

  /** The set after one request of this worker, with what others did before it. */
  function AfterTrip(s: Store, t: Trip, own: Timed): Store {
    if t.fate.NeverSent? then After(s, t.others) else Execute(After(s, t.others), own).0
  }

  /** The script of the request answers 1. */
  predicate Succeeded(s: Store, t: Trip, own: Timed) { !t.fate.NeverSent? && Execute(After(s, t.others), own).1 }

  const PAUSE := 0.05

  function Min(a: real, b: real): real { if a < b then a else b }

  /** How many pauses fit into the time left. */
  function Pauses(left: real): nat {
    if left <= 0.0 then 0 else Ceil(left * 20.0)
  }

  lemma PauseUsesTime(left: real, slept: real, after: real)
    requires 0.0 < left && Min(PAUSE, left) <= slept && after <= left - slept
    ensures Pauses(after) < Pauses(left)
  {
  }

  ghost predicate Foreign(run: seq<Timed>, token: Token, limit: int) {
    AllLimited(run, limit) && forall i :: 0 <= i < |run| ==> run[i].op.token != token
  }

  /** Requests of others neither add nor refresh a token. */
  lemma ForeignAddsNothing(s: Store, run: seq<Timed>, token: Token, limit: int)
    requires Foreign(run, token, limit) && token !in s.scores
    ensures token !in After(s, run).scores
  {
    if run != [] {
      var n := |run| - 1;
      assert run[n].op.token != token;
      assert forall i :: 0 <= i < n ==> run[..n][i] == run[i];
      ForeignAddsNothing(s, run[..n], token, limit);
    }
  }

  /** What others do before a request, and the request itself, happen in the order of one clock. */
  ghost predicate InOrder(t: Trip, last: real, lo: real, hi: real) {
    && last <= t.at && t.clock <= t.at
    && (forall i :: 0 <= i < |t.others| ==> last <= t.others[i].at <= t.at && SentBefore(t.others[i])
                                            && LifetimeWithin(t.others[i].op, lo, hi))
    && (forall i, j :: 0 <= i < j < |t.others| ==> t.others[i].at <= t.others[j].at)
  }

  /** Others do not take an unexpired lease away. */
  lemma {:induction false} OthersKeep(s: Store, t: Trip, k: nat, lo: real, hi: real, last: real, token: Token)
    requires Compatible(lo, hi) && InOrder(t, last, lo, hi) && k <= |t.others|
    requires KeyOutlives(s, hi, last) && token in s.scores && t.at < s.scores[token]
    requires forall i :: 0 <= i < |t.others| ==> t.others[i].op.token != token
    ensures var after := After(s, t.others[..k]);
            && token in after.scores && after.scores[token] == s.scores[token]
            && KeyOutlives(after, hi, if k == 0 then last else t.others[k - 1].at)
  {
    if k > 0 {
      var r, before := t.others[k - 1], if k == 1 then last else t.others[k - 2].at;
      OthersKeep(s, t, k - 1, lo, hi, last, token);
      assert t.others[..k][..k - 1] == t.others[..k - 1];
      assert r.op.token != token && before <= r.at;
      hide Execute, KeyOutlives, Compatible;
      OnlyReleaseRemoves(After(s, t.others[..k - 1]), r, hi, before, token);
      ExecuteKeepsKey(After(s, t.others[..k - 1]), r, lo, hi, before);
    }
  }

  /** A punctual refresh is granted, and starts the lease anew. */
  lemma PunctualSucceeds(s: Store, t: Trip, lease: Lease, lo: real, hi: real, last: real)
    requires Compatible(lo, hi) && lo <= lease.ttl <= hi && t.fate.Answered? && InOrder(t, last, lo, hi)
    requires KeyOutlives(s, hi, last) && lease.token in s.scores && t.at < s.scores[lease.token]
    requires forall i :: 0 <= i < |t.others| ==> t.others[i].op.token != lease.token
    ensures var own := OwnRefresh(t, lease);
            var after := AfterTrip(s, t, own);
            && Succeeded(s, t, own) && KeyOutlives(after, hi, t.at)
            && lease.token in after.scores && after.scores[lease.token] == t.clock + lease.ttl
  {
    var n := |t.others|;
    var before := if n == 0 then last else t.others[n - 1].at;
    OthersKeep(s, t, n, lo, hi, last, lease.token);
    assert t.others[..n] == t.others;
    assert before <= t.at;
    hide After, Execute, KeyOutlives, Compatible;
    OnlyReleaseRemoves(After(s, t.others), OwnRefresh(t, lease), hi, before, lease.token);
    ExecuteKeepsKey(After(s, t.others), OwnRefresh(t, lease), lo, hi, before);
  }

  class RedisAdmissionController {
    const leases: LeaseSet
    const trips: nat -> Trip
    var requests: nat
    var monotonic: real

    constructor (leases: LeaseSet, trips: nat -> Trip)
      ensures this.leases == leases && this.trips == trips && requests == 0
    {
      this.leases, this.trips, requests, monotonic := leases, trips, 0, 0.0;
    }

    /** The other workers share the limit, and tokens are unique. */
    ghost predicate Shares(token: Token, limit: int) {
      forall n :: Foreign(trips(n).others, token, limit)
    }

    /** The next requests are all answered, on one clock that the other workers share, each before the lease runs out.
        */
    ghost predicate Punctual(lease: Lease, lo: real, hi: real, next: nat, beats: nat, last: real, deadline: real)
      decreases beats
    {
      beats == 0
      || var t := trips(next);
         && t.fate.Answered? && InOrder(t, last, lo, hi) && t.at < deadline
         && Punctual(lease, lo, hi, next + 1, beats - 1, t.at, t.clock + lease.ttl)
    }

    /** The requests from one number up to another were answered. */
    ghost predicate Answers(from: nat, to: nat) {
      forall n :: from <= n < to ==> trips(n).fate.Answered?
    }

    lemma OneMoreAnswer(from: nat, to: nat)
      requires from <= to && Answers(from, to)
      ensures trips(to).fate.Answered? ==> Answers(from, to + 1)
    {
    }

    /** Time passes, other workers are served, and the next request is due. */
    method NextTrip(token: Token, limit: int) returns (trip: Trip)
      requires Shares(token, limit)
      modifies this, leases
      ensures trip == trips(old(requests)) && requests == old(requests) + 1 && old(monotonic) <= monotonic
      ensures leases.State() == After(old(leases.State()), trip.others)
      ensures 0 <= limit && |old(leases.scores)| <= limit ==> |leases.scores| <= limit
      ensures token !in old(leases.scores) ==> token !in leases.scores
    {
      trip := trips(requests);
      assert Foreign(trip.others, token, limit);
      requests := requests + 1;
      monotonic := monotonic + if trip.elapsed < 0.0 then 0.0 else trip.elapsed;
      ghost var before := leases.State();
      leases.Serve(trip.others);
      if 0 <= limit && |before.scores| <= limit {
        NeverOverLimit(before, trip.others, limit);
      }
      if token !in before.scores {
        ForeignAddsNothing(before, trip.others, token, limit);
      }
    }

    /** One evaluation of the acquire script, as far as it gets. */
    method Attempt(limit: int, ttl: real, token: Token) returns (fate: Fate, reply: int)
      requires 1 <= limit && Shares(token, limit) && token !in leases.scores
      modifies this, leases
      ensures requests == old(requests) + 1 && fate == trips(old(requests)).fate && old(monotonic) <= monotonic
      ensures |old(leases.scores)| <= limit ==> |leases.scores| <= limit
      ensures leases.State() == AfterTrip(old(leases.State()), trips(old(requests)),
                                          OwnAcquire(trips(old(requests)), limit, ttl, token))
      ensures reply == 1 <==> Succeeded(old(leases.State()), trips(old(requests)),
                                        OwnAcquire(trips(old(requests)), limit, ttl, token))
      ensures token in leases.scores <==> reply == 1
      ensures !fate.NeverSent? && reply != 1 ==> limit <= |leases.scores|
    {
      hide After, Execute, Visible, Shares, Foreign;
      var trip := NextTrip(token, limit);
      fate, reply := trip.fate, 0;
      if !fate.NeverSent? {
        ghost var unserved := leases.State();
        reply := leases.EvalAcquire(trip.clock, trip.clock + ttl, limit, token, ttl, trip.at);
        Attempted(unserved, Timed(Op.Acquire(token, trip.clock, limit, ttl), trip.at), limit);
      }
    }

    /** Sleep a short while, or for the rest of the time. */
    method Sleep(remaining: real, ghost deadline: real)
      requires 0.0 < remaining == deadline - monotonic
      modifies this`monotonic
      ensures monotonic == old(monotonic) + Min(PAUSE, remaining)
      ensures Pauses(deadline - monotonic) < Pauses(deadline - old(monotonic))
    {
      PauseUsesTime(remaining, Min(PAUSE, remaining), remaining - Min(PAUSE, remaining));
      monotonic := monotonic + Min(PAUSE, remaining);
    }

    /** Try until granted or out of time. */
    method Acquire(limit: int, waitSeconds: real, ttl: real, token: Token) returns (r: AcquireResult)
      requires Shares(token, limit) && token !in leases.scores
      modifies this, leases
      ensures r.BadArguments? <==> limit < 1 || ttl <= 0.0 || waitSeconds < 0.0
      ensures r.BadArguments? ==> leases.State() == old(leases.State())
      ensures 1 <= limit && |old(leases.scores)| <= limit ==> |leases.scores| <= limit
      ensures r.Granted? ==> r.lease == Lease(token, ttl) && token in leases.scores
      // who is refused leaves nothing behind, has waited long enough, and has tried at least once
      ensures r.Refused? ==>
                token !in leases.scores && old(monotonic) + waitSeconds <= monotonic && old(requests) < requests
      // and found the set full at the last attempt
      ensures r.Refused? ==> limit <= |leases.scores|
      // it is unavailable only for a request that was not answered, and every other attempt was
      ensures !r.BadArguments? ==> old(requests) < requests
      ensures old(requests) < requests ==> Answers(old(requests), requests - 1)
      ensures !r.BadArguments? ==> (r.Unavailable? <==> !trips(requests - 1).fate.Answered?)
      // a failed attempt leaves a lease that nobody holds only if its reply was lost
      ensures r.Unavailable? && token in leases.scores ==> trips(requests - 1).fate.ReplyLost?
      // a place that is free at the first attempt is taken
      ensures !r.BadArguments? && trips(old(requests)).fate.Answered?
              && Succeeded(old(leases.State()), trips(old(requests)),
                           OwnAcquire(trips(old(requests)), limit, ttl, token))
              ==> r.Granted?
      // the number of attempts is bounded by the waiting time
      ensures requests <= old(requests) + 1 + Pauses(waitSeconds)
    {
      if limit < 1 || ttl <= 0.0 || waitSeconds < 0.0 {
        return BadArguments;
      }
      ghost var start, bound := requests, Pauses(waitSeconds);
      ghost var hasPlace := Succeeded(leases.State(), trips(start), OwnAcquire(trips(start), limit, ttl, token));
      ghost var within := |leases.scores| <= limit;
      assert Answers(start, start);
      hide After, Execute, Visible, Pauses, Min, Shares, Foreign, AfterTrip, Succeeded, OwnAcquire, Answers;
      var deadline := monotonic + waitSeconds;
      while true
        invariant token !in leases.scores
        invariant within ==> |leases.scores| <= limit
        invariant start <= requests
        invariant Answers(start, requests)
        invariant requests == start ==> hasPlace == Succeeded(leases.State(), trips(start),
                                                              OwnAcquire(trips(start), limit, ttl, token))
        invariant start < requests ==> !hasPlace
        invariant requests + Pauses(deadline - monotonic) <= start + bound
        decreases Pauses(deadline - monotonic)
      {
        ghost var before := deadline - monotonic;
        OneMoreAnswer(start, requests);
        var fate, reply := Attempt(limit, ttl, token);
        PausesShrink(before, deadline - monotonic);
        if !fate.Answered? {
          return Unavailable;
        }
        if reply == 1 {
          return Granted(Lease(token, ttl));
        }
        var remaining := deadline - monotonic;
        if remaining <= 0.0 {
          return Refused;
        }
        Sleep(remaining, deadline);
      }
    }

    /** None stands for AdmissionUnavailable. */
    method Refresh(lease: Lease, limit: int) returns (r: Option<bool>)
      requires Shares(lease.token, limit)
      modifies this, leases
      ensures 0 <= limit && |old(leases.scores)| <= limit ==> |leases.scores| <= limit
      ensures r.Some? ==> (r.value <==> lease.token in leases.scores)
      ensures lease.token !in old(leases.scores) ==> r != Some(true) && lease.token !in leases.scores
      ensures requests == old(requests) + 1 && old(monotonic) <= monotonic
      ensures var trip := trips(old(requests));
              && leases.State() == AfterTrip(old(leases.State()), trip, OwnRefresh(trip, lease))
              && (r.Some? <==> trip.fate.Answered?)
              && (r.Some? ==> (r.value <==> Succeeded(old(leases.State()), trip, OwnRefresh(trip, lease))))
    {
      hide After, Execute;
      var trip := NextTrip(lease.token, limit);
      var reply := 0;
      if !trip.fate.NeverSent? {
        ghost var unserved := leases.State();
        reply := leases.EvalRefresh(lease.token, trip.clock + lease.ttl, lease.ttl, trip.at);
        Refreshed(unserved, Timed(Op.Refresh(lease.token, trip.clock, lease.ttl), trip.at), limit);
      }
      r := if trip.fate.Answered? then Some(reply == 1) else None;
    }

    /** False stands for AdmissionUnavailable: the lease may still be there. */
    method Release(lease: Lease, limit: int) returns (ok: bool)
      requires Shares(lease.token, limit)
      modifies this, leases
      ensures 0 <= limit && |old(leases.scores)| <= limit ==> |leases.scores| <= limit
      ensures ok ==> lease.token !in leases.scores
      ensures requests == old(requests) + 1 && (ok <==> trips(old(requests)).fate.Answered?)
      ensures var trip := trips(old(requests));
              leases.State() == AfterTrip(old(leases.State()), trip, Timed(Op.Release(lease.token), trip.at))
    {
      var trip := NextTrip(lease.token, limit);
      if !trip.fate.NeverSent? {
        ghost var unserved := leases.State();
        leases.ZRem(lease.token, trip.at);
        if 0 <= limit && |unserved.scores| <= limit {
          ExecuteKeepsBound(unserved, Timed(Op.Release(lease.token), trip.at), limit);
        }
      }
      ok := trip.fate.Answered?;
    }

    /** The lease is held, and its next refreshes come in time. */
    ghost predicate WellKept(lease: Lease, lo: real, hi: real, beats: nat, last: real)
      reads this, leases
    {
      && Compatible(lo, hi) && lo <= lease.ttl <= hi
      && KeyOutlives(leases.State(), hi, last) && lease.token in leases.scores
      && Punctual(lease, lo, hi, requests, beats, last, leases.scores[lease.token])
    }

    /** Pause, then refresh. */
    method Beat(lease: Lease, interval: real, limit: int, ghost lo: real, ghost hi: real, ghost beats: nat,
                ghost last: real)
      returns (r: Option<bool>)
      requires Shares(lease.token, limit) && 0.0 < interval
      modifies this, leases
      ensures requests == old(requests) + 1 && old(monotonic) + interval <= monotonic
      ensures 0 <= limit && |old(leases.scores)| <= limit ==> |leases.scores| <= limit
      ensures r.Some? <==> trips(old(requests)).fate.Answered?
      ensures r.Some? ==> (r.value <==> lease.token in leases.scores)
      ensures lease.token !in old(leases.scores) ==> r != Some(true) && lease.token !in leases.scores
      ensures old(WellKept(lease, lo, hi, beats, last)) && 0 < beats ==>
                r == Some(true) && WellKept(lease, lo, hi, beats - 1, trips(old(requests)).at)
    {
      ghost var before, trip := leases.State(), trips(requests);
      if WellKept(lease, lo, hi, beats, last) && 0 < beats {
        assert Foreign(trip.others, lease.token, limit);
        PunctualSucceeds(before, trip, lease, lo, hi, last);
      }
      hide AfterTrip, Succeeded, OwnRefresh, Compatible, KeyOutlives, InOrder, Shares, Foreign;
      monotonic := monotonic + interval;
      r := Refresh(lease, limit);
    }

    /** Refresh the lease until it is lost, until Redis fails, or until its task is cancelled during the pause after
        `beats` refreshes. */
    method Heartbeat(lease: Lease, interval: real, beats: nat, limit: int, ghost lo: real, ghost hi: real,
                     ghost last: real)
      returns (end: HeartbeatEnd)
      requires Shares(lease.token, limit)
      modifies this, leases
      ensures end.BadInterval? <==> interval <= 0.0
      ensures end.BadInterval? ==> requests == old(requests) && leases.State() == old(leases.State())
      ensures 0 <= limit && |old(leases.scores)| <= limit ==> |leases.scores| <= limit
      ensures end.LeaseLost? ==> lease.token !in leases.scores
      // it fails only for a request that was not answered, and every other one was answered
      ensures !end.BadInterval? ==>
                (end.RefreshFailed? <==> old(requests) < requests && !trips(requests - 1).fate.Answered?)
      ensures old(requests) < requests ==> Answers(old(requests), requests - 1)
      ensures end.Cancelled? ==> requests == old(requests) + beats && (0 < beats ==> lease.token in leases.scores)
      ensures end.Cancelled? ==> old(monotonic) + beats as real * interval <= monotonic
      ensures lease.token !in old(leases.scores) && 0 < beats ==> !end.Cancelled?
      // with compatible lifetimes, a holder whose refreshes come before the lease runs out is never turned away
      ensures old(WellKept(lease, lo, hi, beats, last)) && 0.0 < interval ==> end.Cancelled?
    {
      if interval <= 0.0 {
        return BadInterval;
      }
      ghost var wellKept, now := WellKept(lease, lo, hi, beats, last), last;
      assert Answers(requests, requests);
      hide WellKept, Shares, Answers;
      for beat := 0 to beats
        invariant requests == old(requests) + beat && old(monotonic) + beat as real * interval <= monotonic
        invariant 0 <= limit && |old(leases.scores)| <= limit ==> |leases.scores| <= limit
        invariant 0 < beat ==> lease.token in leases.scores
        invariant lease.token !in old(leases.scores) ==> lease.token !in leases.scores && beat == 0
        invariant Answers(old(requests), requests)
        invariant wellKept ==> WellKept(lease, lo, hi, beats - beat, now)
      {
        ghost var trip := trips(requests);
        OneMoreAnswer(old(requests), requests);
        var refreshed := Beat(lease, interval, limit, lo, hi, beats - beat, now);
        now := trip.at;
        if refreshed.None? {
          return RefreshFailed;
        }
        if !refreshed.value {
          return LeaseLost;
        }
      }
      end := Cancelled;
    }
  }

  lemma Refreshed(s: Store, r: Timed, limit: int)
    requires r.op.Refresh?
    ensures 0 <= limit && |s.scores| <= limit ==> |Execute(s, r).0.scores| <= limit
    ensures r.op.token in Execute(s, r).0.scores <==> Execute(s, r).1
    ensures r.op.token !in s.scores ==> !Execute(s, r).1
  {
    if 0 <= limit && |s.scores| <= limit {
      ExecuteKeepsBound(s, r, limit);
    }
  }

  lemma PausesShrink(before: real, after: real)
    requires after <= before
    ensures Pauses(after) <= Pauses(before)
  {
  }

  /** One attempt: granted or not, the bound is kept, and the token is in exactly when it was granted. */
  lemma Attempted(s: Store, r: Timed, limit: int)
    requires r.op.Acquire? && r.op.limit == limit && 1 <= limit && r.op.token !in s.scores
    ensures |s.scores| <= limit ==> |Execute(s, r).0.scores| <= limit
    ensures r.op.token in Execute(s, r).0.scores <==> Execute(s, r).1
    ensures !Execute(s, r).1 ==> limit <= |Execute(s, r).0.scores|
  {
    if |s.scores| <= limit {
      ExecuteKeepsBound(s, r, limit);
    }
  }
}
