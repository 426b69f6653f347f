/** The chat endpoint's event generator: it streams only under a lease, and gives the lease back on every way out. */
module ChatAdmission {
  import opened Common
  import Admission

  type Token = string

  /** `except Exception` catches the first two, the first of them in a handler of its own. */
  datatype Exc = Unavailable | OrdinaryError | TaskCancelled | GeneratorExit

  datatype Signal = Normal | Raised(exc: Exc)

  datatype AcquireReply = Lease(token: Token) | NoLease | AcquireRaises(exc: Exc)

  datatype Connection = Connected | Disconnected | AskingRaises(exc: Exc)

  /** The heartbeat task: a non-positive interval ends it with a ValueError as soon as it runs, a failed refresh with
      AdmissionUnavailable. */
  datatype Beat = NotStarted | Beating | Lost | BadInterval

  datatype World = World(
    acquire: AcquireReply,
    failOpen: bool,
    interval: real,
    beatStarts: nat,                  // the suspension at which the heartbeat task first runs
    beatFails: nat,                   // the suspension at which a refresh fails
    events: seq<string>,              // what the workflow streams
    ending: Signal,                   // how its stream ends
    connection: nat -> Connection,
    wake: nat -> Signal,
    release: Signal)

  function BeatAt(w: World, now: nat): Beat {
    if now < w.beatStarts then NotStarted
    else if w.interval <= 0.0 then BadInterval
    else if w.beatFails <= now then Lost
    else Beating
  }

  predicate BeatDone(b: Beat) { b == Lost || b == BadInterval }

  datatype Code = CapacityUnavailable | CapacityExceeded | PipelineError

  /** The act at `i` of a log is the suspension with that number: taking the lease, asking whether the client is still
      connected, sending an event or an error, and giving the lease back. */
  datatype Act = Admitted(token: Token) | NotAdmitted | Asked | Sent(event: string) | SentError(code: Code)
               | Returned(token: Token)

  /** The events sent so far. */
  function Delivered(log: seq<Act>): seq<string> {
    if log == [] then []
    else
      var last := log[|log| - 1];
      Delivered(log[..|log| - 1]) + if last.Sent? then [last.event] else []
  }

  // ---- what may happen when ----

  function First(w: World): Act { if w.acquire.Lease? then Admitted(w.acquire.token) else NotAdmitted }

  /** What is raised at the suspension. */
  function Raises(w: World, i: nat, x: Act): Signal {
    match x
    case Admitted(_) => Normal
    case NotAdmitted => if w.acquire.AcquireRaises? then Raised(w.acquire.exc) else Normal
    case Asked => if w.connection(i).AskingRaises? then Raised(w.connection(i).exc) else Normal
    case Sent(_) => w.wake(i)
    case SentError(_) => w.wake(i)
    case Returned(_) => w.release
  }

  /** The generator relays on after the act. */
  predicate GoesOn(w: World, i: nat, x: Act) {
    match x
    case Admitted(_) => true
    case NotAdmitted => w.failOpen && (w.acquire.NoLease? || w.acquire == AcquireRaises(Unavailable))
    case Asked => w.connection(i).Connected?
    case Sent(_) => w.wake(i).Normal?
    case SentError(_) => false
    case Returned(_) => false
  }

  ghost predicate Relaying(w: World, log: seq<Act>) {
    log != [] && forall i :: 0 <= i < |log| ==> GoesOn(w, i, log[i])
  }

  /** What the heartbeat task is found to have ended with. */
  function Pulse(w: World, now: nat): Signal {
    if !w.acquire.Lease? then Normal
    else
      match BeatAt(w, now)
      case Lost => Raised(Unavailable)
      case BadInterval => Raised(OrdinaryError)
      case _ => Normal
  }

  /** Only a generator that is admitted, or fails open, relays events: each after finding its heartbeat alive and its
      client connected, in the order of the workflow. */
  ghost predicate Follows(w: World, before: seq<Act>, x: Act) {
    match x
    case Asked =>
      && Relaying(w, before) && !before[|before| - 1].Asked?
      && Delivered(before) != w.events && Pulse(w, |before|).Normal?
    case Sent(event) =>
      Relaying(w, before) && before[|before| - 1].Asked? && Delivered(before) + [event] <= w.events
    case _ => before == [] && x == First(w)
  }

  ghost predicate Sane(w: World, log: seq<Act>) {
    forall i :: 0 <= i < |log| ==> Follows(w, log[..i], log[i])
  }

  /** Relaying ends here: the last act stopped it, the next event meets a heartbeat that has ended, or there is none. */
  ghost predicate Ended(w: World, log: seq<Act>) {
    && log != [] && (forall i :: 0 <= i < |log| - 1 ==> GoesOn(w, i, log[i]))
    && (GoesOn(w, |log| - 1, log[|log| - 1]) ==>
          !log[|log| - 1].Asked? && (Delivered(log) == w.events || Pulse(w, |log|).Raised?))
  }

  /** What ended it. */
  function Reason(w: World, log: seq<Act>): Signal
    requires log != []
  {
    if !GoesOn(w, |log| - 1, log[|log| - 1]) then Raises(w, |log| - 1, log[|log| - 1])
    else if Delivered(log) != w.events then Pulse(w, |log|)
    else w.ending
  }

  /** What a client without a lease is told. */
  function Refusal(r: AcquireReply): Option<Code> {
    if r.NoLease? then Some(CapacityExceeded)
    else if r == AcquireRaises(Unavailable) then Some(CapacityUnavailable)
    else None
  }

  predicate IsRefused(w: World) { !w.failOpen && Refusal(w.acquire).Some? }

  /** What the handlers tell the client. */
  function Report(signal: Signal): seq<Act> {
    if signal == Raised(Unavailable) then [SentError(CapacityUnavailable)]
    else if signal == Raised(OrdinaryError) then [SentError(PipelineError)]
    else []
  }

  /** A refused client is told why, another one what went wrong. */
  function Errors(w: World, body: seq<Act>): seq<Act>
    requires body != []
  {
    if IsRefused(w) then [SentError(Refusal(w.acquire).value)] + Report(w.wake(1)) else Report(Reason(w, body))
  }

  /** A cancelled task just ends; the failure to report an error goes on upwards. */
  function Handled(w: World, body: seq<Act>): Signal
    requires body != []
  {
    var raised := if IsRefused(w) then w.wake(1) else Reason(w, body);
    if Report(raised) != [] then w.wake(|body| + |Errors(w, body)| - 1)
    else if raised == Raised(TaskCancelled) then Normal
    else raised
  }

  /** The lease is given back, unless the heartbeat task is found to have ended with a ValueError. */
  function Exit(w: World, now: nat): seq<Act> {
    if w.acquire.Lease? && BeatAt(w, now) != BadInterval then [Returned(w.acquire.token)] else []
  }

  function Outcome(w: World, now: nat, handled: Signal): Signal {
    if !w.acquire.Lease? then handled
    else if BeatAt(w, now) == BadInterval then Raised(OrdinaryError)
    else if w.release.Raised? && w.release.exc != Unavailable then w.release
    else handled
  }

  lemma OneMore(w: World, log: seq<Act>, x: Act)
    ensures Delivered(log + [x]) == Delivered(log) + if x.Sent? then [x.event] else []
    ensures Sane(w, log) && Follows(w, log, x) ==> Sane(w, log + [x])
    ensures Relaying(w, log) ==> (Relaying(w, log + [x]) <==> GoesOn(w, |log|, x))
  {
    assert (log + [x])[..|log|] == log;
    SaneMore(w, log, x);
    RelayingMore(w, log, x);
    hide Sane, Relaying, Follows, GoesOn;
  }

  lemma SaneMore(w: World, log: seq<Act>, x: Act)
    ensures Sane(w, log) && Follows(w, log, x) ==> Sane(w, log + [x])
  {
    hide Follows;
    if Sane(w, log) && Follows(w, log, x) {
      forall i | 0 <= i <= |log|
        ensures Follows(w, (log + [x])[..i], (log + [x])[i])
      {
        assert (log + [x])[..i] == log[..i];
        assert log[..|log|] == log;
      }
    }
  }

  lemma RelayingMore(w: World, log: seq<Act>, x: Act)
    ensures Relaying(w, log) ==> (Relaying(w, log + [x]) <==> GoesOn(w, |log|, x))
  {
    hide GoesOn;
    assert (log + [x])[|log|] == x && forall i :: 0 <= i < |log| ==> (log + [x])[i] == log[i];
  }

  // ---- the generator ----

  /** Take a lease, or tell the client that there is no capacity. */
  method Admit(w: World) returns (log: seq<Act>, signal: Signal, admitted: bool)
    ensures admitted <==> GoesOn(w, 0, First(w))
    ensures admitted ==> log == [First(w)] && signal.Normal? && (w.acquire.Lease? || w.failOpen)
    ensures w.acquire.Lease? ==> admitted
    ensures !admitted ==>
              if IsRefused(w) then log == [First(w), SentError(Refusal(w.acquire).value)] && signal == w.wake(1)
              else log == [First(w)] && signal == Raised(w.acquire.exc)
  {
    log, signal, admitted := [First(w)], Normal, false;
    match w.acquire {
      case AcquireRaises(exc) =>
        if exc != Unavailable {
          signal := Raised(exc);
          return;
        }
        if !w.failOpen {
          log, signal := log + [SentError(CapacityUnavailable)], w.wake(1);
          return;
        }
      case NoLease =>
        if !w.failOpen {
          log, signal := log + [SentError(CapacityExceeded)], w.wake(1);
          return;
        }
      case Lease(_) =>
    }
    admitted := true;
  }

  /** Relay the workflow's events while the lease is alive and the client connected. */
  method Relay(w: World) returns (log: seq<Act>, signal: Signal)
    requires GoesOn(w, 0, First(w))
    ensures Sane(w, log) && Ended(w, log) && log != [] && log[0] == First(w)
    ensures signal == Reason(w, log)
  {
    log, signal := [First(w)], Normal;
    FirstAct(w);
    hide Delivered, BeatAt, Sane, Relaying, Follows;
    for i := 0 to |w.events|
      invariant Sane(w, log) && Relaying(w, log) && log != [] && log[0] == First(w) && !log[|log| - 1].Asked?
      invariant Delivered(log) == w.events[..i]
    {
      var pulse := Pulse(w, |log|);
      if pulse.Raised? {
        StopsHere(w, log);
        return log, pulse;
      }
      assert w.events[..i + 1] == w.events[..i] + [w.events[i]];
      Asks(w, log, w.events[i]);
      ghost var before := log;
      var connection := w.connection(|log|);
      log := log + [Asked];
      if !connection.Connected? {
        Stops(w, before, Asked);
        return log, if connection.AskingRaises? then Raised(connection.exc) else Normal;
      }
      before := log;
      signal := w.wake(|log|);
      log := log + [Sent(w.events[i])];
      if signal.Raised? {
        Stops(w, before, Sent(w.events[i]));
        return;
      }
    }
    StopsHere(w, log);
    signal := w.ending;
  }

  lemma FirstAct(w: World)
    requires GoesOn(w, 0, First(w))
    ensures Sane(w, [First(w)]) && Relaying(w, [First(w)]) && Delivered([First(w)]) == []
  {
    assert [First(w)][..0] == [];
  }

  /** The connection is asked for, and then the event is sent. */
  lemma Asks(w: World, log: seq<Act>, event: string)
    requires Sane(w, log) && Relaying(w, log) && !log[|log| - 1].Asked? && Pulse(w, |log|).Normal?
    requires Delivered(log) + [event] <= w.events
    ensures var asked := log + [Asked];
            var sent := asked + [Sent(event)];
            && Sane(w, asked) && Delivered(asked) == Delivered(log)
            && (w.connection(|log|).Connected? ==>
                  && Relaying(w, asked) && Sane(w, sent) && Delivered(sent) == Delivered(log) + [event]
                  && (w.wake(|asked|).Normal? ==> Relaying(w, sent)))
  {
    var asked := log + [Asked];
    OneMore(w, log, Asked);
    OneMore(w, asked, Sent(event));
    hide Delivered, Sane, Relaying;
    assert Follows(w, log, Asked);
    assert asked[|asked| - 1] == Asked;
  }

  lemma StopsHere(w: World, log: seq<Act>)
    requires Relaying(w, log) && !log[|log| - 1].Asked?
    requires Delivered(log) == w.events || Pulse(w, |log|).Raised?
    ensures Ended(w, log)
  {
    hide GoesOn, Delivered, Pulse;
  }

  lemma Stops(w: World, before: seq<Act>, x: Act)
    requires Relaying(w, before) && !GoesOn(w, |before|, x)
    ensures Ended(w, before + [x])
  {
    hide GoesOn, Delivered, Pulse;
    assert (before + [x])[|before|] == x;
    assert forall i :: 0 <= i < |before| ==> (before + [x])[i] == before[i];
  }

  lemma RefusedEnds(w: World)
    requires !GoesOn(w, 0, First(w))
    ensures Sane(w, [First(w)]) && Ended(w, [First(w)]) && Delivered([First(w)]) == []
  {
    assert [First(w)][..0] == [];
  }

  // ---- what that comes to ----

  ghost predicate NothingReturned(log: seq<Act>) {
    forall i :: 0 <= i < |log| ==> !log[i].Returned?
  }

  /** An event is sent only by a generator that took its lease first. */
  ghost predicate LeasedWork(w: World, log: seq<Act>) {
    forall i :: 0 <= i < |log| && log[i].Sent? ==> w.acquire.Lease? && log[0] == Admitted(w.acquire.token)
  }

  /** At every moment so far. */
  ghost predicate AlwaysLeased(w: World, log: seq<Act>) {
    forall n :: 0 <= n <= |log| ==> LeasedWork(w, log[..n])
  }

  lemma LeasedAllAlong(w: World, log: seq<Act>)
    requires LeasedWork(w, log)
    ensures AlwaysLeased(w, log)
  {
    forall n, i | 0 <= i < n <= |log| && log[..n][i].Sent?
      ensures w.acquire.Lease? && log[..n][0] == Admitted(w.acquire.token)
    {
      assert log[i].Sent? && log[..n][0] == log[0];
    }
  }

  /** The client was there just before the event was sent, and the heartbeat alive. */
  predicate SentInTime(w: World, log: seq<Act>, i: nat)
    requires i < |log|
  {
    log[i].Sent? ==>
      0 < i && log[i - 1].Asked? && w.connection(i - 1).Connected? && (w.acquire.Lease? ==> !BeatDone(BeatAt(w, i - 1)))
  }

  lemma RelaysInTime(w: World, body: seq<Act>, i: nat)
    requires Sane(w, body) && i < |body|
    ensures SentInTime(w, body, i) && !body[i].SentError? && !body[i].Returned? && body[0] == First(w)
    ensures body[i].Sent? && !w.failOpen ==> w.acquire.Lease?
  {
    assert Follows(w, body[..0], body[0]) && Follows(w, body[..i], body[i]);
    hide Delivered, Pulse, Report;
    if body[i].Sent? {
      assert body[..i][0] == body[0] && GoesOn(w, 0, body[..i][0]);
      assert body[..i][i - 1] == body[i - 1] && GoesOn(w, i - 1, body[..i][i - 1]);
      assert Follows(w, body[..i - 1], body[i - 1]);
    }
  }

  lemma NothingMoreDelivered(log: seq<Act>, rest: seq<Act>)
    requires forall i :: 0 <= i < |rest| ==> !rest[i].Sent?
    ensures Delivered(log + rest) == Delivered(log)
  {
    if rest == [] {
      assert log + rest == log;
    } else {
      var n := |rest| - 1;
      assert (log + rest)[..|log| + n] == log + rest[..n];
      NothingMoreDelivered(log, rest[..n]);
    }
  }

  /** A lease is granted, the heartbeat lives, and the client stays and reads. */
  ghost predicate Calm(w: World) {
    && w.acquire.Lease?
    && forall n: nat :: w.wake(n) == Normal && w.connection(n) == Connected && !BeatDone(BeatAt(w, n))
  }

  lemma RelaysAllInTime(w: World, body: seq<Act>)
    requires Sane(w, body)
    ensures body != [] ==> body[0] == First(w)
    ensures forall i :: 0 <= i < |body| ==>
              SentInTime(w, body, i) && !body[i].SentError? && !body[i].Returned?
              && (body[i].Sent? && !w.failOpen ==> w.acquire.Lease?)
    ensures NothingReturned(body)
  {
    hide SentInTime, Sane;
    forall i | 0 <= i < |body|
      ensures SentInTime(w, body, i) && !body[i].SentError? && !body[i].Returned? && body[0] == First(w)
      ensures body[i].Sent? && !w.failOpen ==> w.acquire.Lease?
    {
      RelaysInTime(w, body, i);
    }
  }

  /** Acts that send no event take nothing back. */
  lemma Appended(w: World, body: seq<Act>, rest: seq<Act>)
    requires Sane(w, body) && body != [] && forall i :: 0 <= i < |rest| ==> !rest[i].Sent?
    ensures forall i :: 0 <= i < |body + rest| ==> SentInTime(w, body + rest, i)
    ensures !w.failOpen ==> AlwaysLeased(w, body + rest)
  {
    RelaysAllInTime(w, body);
    hide Sane, BeatAt;
    var log := body + rest;
    assert forall i :: 0 <= i < |body| ==> log[i] == body[i];
    forall i | 0 <= i < |log|
      ensures SentInTime(w, log, i)
    {
      assert i < |body| ==> SentInTime(w, body, i);
    }
    if !w.failOpen {
      LeasedAllAlong(w, log);
    }
  }

  lemma ErrorsReport(w: World, body: seq<Act>)
    requires body != []
    ensures forall i :: 0 <= i < |Errors(w, body)| ==> Errors(w, body)[i].SentError?
  {
    hide Reason;
  }

  lemma Promised(w: World, body: seq<Act>, log: seq<Act>)
    requires Sane(w, body) && body != []
    requires log == body + Errors(w, body) + Exit(w, |body| + |Errors(w, body)|)
    ensures log != [] && log[0] == First(w) && (!w.failOpen ==> AlwaysLeased(w, log))
    ensures forall i :: 0 <= i < |log| ==> SentInTime(w, log, i)
    ensures NothingReturned(log[..|log| - 1])
    ensures log[|log| - 1].Returned? <==>
            w.acquire.Lease? && BeatAt(w, |body| + |Errors(w, body)|) != BadInterval
    ensures Delivered(log) == Delivered(body)
  {
    hide Errors, Delivered, BeatAt, Sane, SentInTime, AlwaysLeased, Exit, NothingReturned;
    var errors, exit := Errors(w, body), Exit(w, |body| + |Errors(w, body)|);
    ErrorsReport(w, body);
    ExitReturns(w, |body| + |errors|);
    RelaysAllInTime(w, body);
    assert log == body + (errors + exit);
    Appended(w, body, errors + exit);
    NothingMoreDelivered(body, errors + exit);
    ReturnsLast(body, errors, exit);
  }

  lemma ExitReturns(w: World, now: nat)
    ensures |Exit(w, now)| <= 1 && forall i :: 0 <= i < |Exit(w, now)| ==> Exit(w, now)[i].Returned?
    ensures Exit(w, now) != [] <==> w.acquire.Lease? && BeatAt(w, now) != BadInterval
  {
  }

  lemma ReturnsLast(body: seq<Act>, errors: seq<Act>, exit: seq<Act>)
    requires body != [] && NothingReturned(body) && |exit| <= 1
    requires forall i :: 0 <= i < |errors| ==> errors[i].SentError?
    requires forall i :: 0 <= i < |exit| ==> exit[i].Returned?
    ensures var log := body + errors + exit;
            NothingReturned(log[..|log| - 1]) && (log[|log| - 1].Returned? <==> exit != [])
  {
    var log := body + errors + exit;
    var n := |body| + |errors|;
    assert forall i :: 0 <= i < |body| ==> log[i] == body[i];
    assert forall i :: |body| <= i < n ==> log[i] == errors[i - |body|];
    assert exit != [] ==> log[n] == exit[0];
  }

  lemma PositiveInterval(w: World, now: nat)
    requires 0.0 < w.interval
    ensures BeatAt(w, now) != BadInterval
  {
  }

  lemma CalmDelivers(w: World, body: seq<Act>)
    requires Sane(w, body) && Ended(w, body) && Calm(w)
    ensures Delivered(body) == w.events
  {
    RelaysInTime(w, body, |body| - 1);
    hide Delivered, Sane, BeatAt;
  }

  lemma {:induction false} DeliveredInOrder(w: World, body: seq<Act>)
    requires Sane(w, body)
    ensures Delivered(body) <= w.events
  {
    if body != [] {
      var n := |body| - 1;
      assert body == body[..n] + [body[n]];
      SaneBefore(w, body, n);
      hide Sane, Relaying, Pulse;
      DeliveredInOrder(w, body[..n]);
      hide Delivered;
      OneMore(w, body[..n], body[n]);
    }
  }

  lemma SaneBefore(w: World, log: seq<Act>, n: nat)
    requires Sane(w, log) && n < |log|
    ensures Sane(w, log[..n]) && Follows(w, log[..n], log[n])
  {
    hide Follows;
    forall i | 0 <= i < n
      ensures Follows(w, log[..n][..i], log[..n][i])
    {
      assert log[..n][..i] == log[..i];
    }
  }

  lemma RefusalIsTold(w: World)
    ensures IsRefused(w) ==>
              !GoesOn(w, 0, First(w)) && Errors(w, [First(w)]) != []
              && Errors(w, [First(w)])[0] == SentError(Refusal(w.acquire).value)
    ensures w.acquire == AcquireRaises(OrdinaryError) ==>
              !GoesOn(w, 0, First(w)) && [First(w)] + Errors(w, [First(w)]) == [NotAdmitted, SentError(PipelineError)]
  {
    hide Delivered, Pulse;
  }

  /** The handlers: tell the client what was raised. */
  method Tell(w: World, body: seq<Act>, log: seq<Act>, raised: Signal) returns (told: seq<Act>, signal: Signal)
    requires body != [] && raised == if IsRefused(w) then w.wake(1) else Reason(w, body)
    requires log == body + if IsRefused(w) then [SentError(Refusal(w.acquire).value)] else []
    ensures told == body + Errors(w, body) && signal == Handled(w, body)
  {
    hide Reason, Refusal;
    told, signal := log, raised;
    if signal == Raised(TaskCancelled) {
      signal := Normal;
    } else if signal == Raised(Unavailable) {
      told, signal := log + [SentError(CapacityUnavailable)], w.wake(|log|);
    } else if signal == Raised(OrdinaryError) {
      told, signal := log + [SentError(PipelineError)], w.wake(|log|);
    }
  }

  /** The whole generator.  `body` are its acts until it stops relaying. */
  method EventGenerator(w: World) returns (log: seq<Act>, signal: Signal, body: seq<Act>)
    // it relays as it should, to the end that it should; then it tells the client what went wrong, and leaves
    ensures Sane(w, body) && Ended(w, body)
    ensures log == body + Errors(w, body) + Exit(w, |body| + |Errors(w, body)|)
    ensures signal == Outcome(w, |body| + |Errors(w, body)|, Handled(w, body))
    // only leased work is streamed, each event after finding the heartbeat alive, and nothing is reordered
    ensures log != [] && log[0] == First(w) && (!w.failOpen ==> AlwaysLeased(w, log))
    ensures forall i :: 0 <= i < |log| ==> SentInTime(w, log, i)
    ensures Delivered(log) <= w.events
    // a refused client is told why, before anything else
    ensures IsRefused(w) ==> |log| >= 2 && log[1] == SentError(Refusal(w.acquire).value)
    ensures w.acquire == AcquireRaises(OrdinaryError) ==> log == [NotAdmitted, SentError(PipelineError)]
    // the lease is given back, exactly once and as the last act
    ensures w.acquire.Lease? && 0.0 < w.interval ==> log[|log| - 1] == Returned(w.acquire.token)
    ensures NothingReturned(log[..|log| - 1])
    // for any interval: unless the heartbeat task has ended with a ValueError when it is awaited
    ensures log[|log| - 1].Returned? <==>
            w.acquire.Lease? && BeatAt(w, |body| + |Errors(w, body)|) != BadInterval
    // and nothing is lost when nothing goes wrong
    ensures Calm(w) ==> Delivered(log) == w.events
  {
    hide Delivered, BeatAt, Sane, Ended, AlwaysLeased, NothingReturned, SentInTime;
    var admitted;
    log, signal, admitted := Admit(w);
    body := [First(w)];
    if admitted {
      log, signal := Relay(w);
      body := log;
    } else {
      RefusedEnds(w);
    }
    DeliveredInOrder(w, body);
    if 0.0 < w.interval {
      PositiveInterval(w, |log|);
      PositiveInterval(w, |body| + |Errors(w, body)|);
    }
    if Calm(w) {
      CalmDelivers(w, body);
    }
    log, signal := Tell(w, body, log, signal);
    RefusalIsTold(w);
    hide Handled, Reason, Errors, Refusal, First;
    // the finally block
    if w.acquire.Lease? {
      if BeatAt(w, |log|) == BadInterval {
        Promised(w, body, log);
        return log, Raised(OrdinaryError), body;
      }
      log := log + [Returned(w.acquire.token)];
      if w.release.Raised? && w.release.exc != Unavailable {
        signal := w.release;
      }
    }
    Promised(w, body, log);
  }

  // ---- many generators on one lease set ----

  /** A generator of some worker, with what it has done so far. */
  datatype Turn = Turn(w: World, log: seq<Act>)

  /** It is granted a lease, and has not given it back. */
  ghost predicate InFlight(t: Turn) { t.w.acquire.Lease? && NothingReturned(t.log) }

  /** It works under a lease, has begun to stream, and has not given the lease back. */
  ghost predicate IsStreaming(t: Turn) {
    LeasedWork(t.w, t.log) && (exists i :: 0 <= i < |t.log| && t.log[i].Sent?) && NothingReturned(t.log)
  }

  /** The request at `p` is the last one granted to the token, and its lease is unexpired. */
  predicate LastGrant(run: seq<Admission.Timed>, p: nat, token: Token, now: real)
    requires p < |run|
  {
    && run[p].op.token == token && !run[p].op.Release? && Admission.Succeeds(run, p)
    && now < run[p].op.clock + run[p].op.ttl
    && forall j :: p < j < |run| && run[j].op.token == token ==> run[j].op.Release? || !Admission.Succeeds(run, j)
  }

  /** The last grant of its lease, if it has one, has run out. */
  ghost predicate RanOut(t: Turn, run: seq<Admission.Timed>, now: real) {
    t.w.acquire.Lease? && forall p :: 0 <= p < |run| ==> !LastGrant(run, p, t.w.acquire.token, now)
  }

  /** Tokens are unique, and a lease is released by its own generator, when that gives it back. */
  ghost predicate Linked(turns: seq<Turn>, run: seq<Admission.Timed>) {
    && (forall i, j :: 0 <= i < j < |turns| && turns[i].w.acquire.Lease? && turns[j].w.acquire.Lease? ==>
          turns[i].w.acquire.token != turns[j].w.acquire.token)
    && (forall i, k :: 0 <= i < |turns| && 0 <= k < |run| && turns[i].w.acquire.Lease? ==>
          run[k].op == Admission.Release(turns[i].w.acquire.token) ==> !NothingReturned(turns[i].log))
  }

  lemma UnreleasedMayWork(t: Turn, run: seq<Admission.Timed>, now: real) returns (p: nat)
    requires InFlight(t) && !RanOut(t, run, now) && Linked([t], run)
    ensures p < |run| && Admission.MayWork(run, p, now) && run[p].op.token == t.w.acquire.token
  {
    assert [t][0] == t;
    p :| 0 <= p < |run| && LastGrant(run, p, t.w.acquire.token, now);
  }

  /** However many generators run in however many workers, those in flight whose lease has not run out number at most
      the limit; and so do those that have begun to stream, which are among them. */
  lemma InFlightWithinLimit(turns: seq<Turn>, run: seq<Admission.Timed>, lo: real, hi: real, limit: int, now: real)
    requires Admission.Compatible(lo, hi) && Admission.Served(run, lo, hi, limit, now) && Linked(turns, run)
    ensures |set i | 0 <= i < |turns| && InFlight(turns[i]) && !RanOut(turns[i], run, now)| <= limit
    ensures forall i :: 0 <= i < |turns| && IsStreaming(turns[i]) ==> InFlight(turns[i])
  {
    var inFlight := set i | 0 <= i < |turns| && InFlight(turns[i]) && !RanOut(turns[i], run, now);
    var token := i => if 0 <= i < |turns| && turns[i].w.acquire.Lease? then turns[i].w.acquire.token else "";
    Admission.HoldersWithinLimit(run, lo, hi, limit, now);
    forall i | i in inFlight
      ensures token(i) in Admission.Working(run, now)
    {
      var p := UnreleasedMayWork(turns[i], run, now);
      assert run[p].op.token == token(i);
    }
    InjectionSize(inFlight, Admission.Working(run, now), token);
  }
}
