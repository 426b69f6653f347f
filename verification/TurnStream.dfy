/** One durable answer stream: an async generator racing with the user's cancel, with its consumer, and with a store
    that may fail.  The trace holds one item for each suspension: a yield, a call to the store, or another await. */
module TurnStream {
  import opened Common
  import AnswerChunks

  // ---- the turn store ----

  datatype TurnStatus = Pending | Streaming | Stopped | Complete | Failed | Superseded

  datatype Turn = Turn(status: TurnStatus, content: string)

  predicate IsOpen(t: TurnStatus) { t == Pending || t == Streaming }

  function AfterCancel(t: Turn): Turn { if IsOpen(t.status) then t.(status := Stopped) else t }

  function AfterUpdate(t: Turn, content: string): Turn { if IsOpen(t.status) then Turn(Streaming, content) else t }

  /** Cancellation wins over a late completion, whose text is dropped; other terminal states absorb everything. */
  function AfterFinish(t: Turn, status: TurnStatus, content: string): Turn {
    if IsOpen(t.status) then Turn(status, content)
    else if t.status == Stopped then Turn(Stopped, if status == Complete then t.content else content)
    else t
  }

  /** What can become of a stored turn.  Terminal states are never left. */
  ghost predicate Later(before: Turn, after: Turn) {
    && (before.status == Stopped ==> after.status == Stopped)
    && (!IsOpen(before.status) && before.status != Stopped ==> after == before)
  }

  // ---- the environment ----

  /** What an await or a yield can raise.  `except Exception` catches only an ordinary error. */
  datatype Exc = OrdinaryError | TaskCancelled | GeneratorExit

  datatype Signal = Normal | Raised(exc: Exc)

  /** A failing store call may have committed before it raised. */
  datatype StoreReply = Done | NoSuchTurn | StoreRaises(exc: Exc, applied: bool)

  /** Conflict stands for the PermissionError and ValueError of begin_turn. */
  datatype BeginReply = Begun(turn: Turn) | NotDurable | Conflict | BeginRaises(exc: Exc)

  datatype Execution = Executed(answer: string, phases: seq<string>, asksUser: bool) | ExecutionRaises(exc: Exc)

  /** Arbitrary answers for every suspension; `cancels(n)` says that the user's cancel lands at the n-th. */
  datatype World = World(begin: BeginReply, execution: Execution, cancels: nat -> bool, store: nat -> StoreReply,
                         wake: nat -> Signal, snapshot: Signal, isReplay: bool, chunkSize: int, delays: bool)

  // ---- the trace ----

  datatype Code = InvalidReplayTarget | TurnConflict | ExecutionFailed | PersistenceFailed | StreamIncomplete

  datatype Event = Started | StepEvent(phase: string) | InputRequired | Chunk(text: string) | Error(code: Code)
                 | ResponseStopped(text: string) | ResponseComplete(text: string)

  datatype Wait = Poll | Delay | Bookkeeping

  /** The item at `i` of a trace is the suspension with that number. */
  datatype Item = Emitted(sequence: nat, event: Event) | Update(content: string)
                | Finish(status: TurnStatus, content: string) | Waited(why: Wait)

  predicate IsTerminal(x: Item) {
    x.Emitted? && (x.event.Error? || x.event.ResponseStopped? || x.event.ResponseComplete?)
  }

  /** The error that the stream emits when something unexpected was raised. */
  predicate IsFallback(x: Item) { x.Emitted? && x.event == Error(StreamIncomplete) }

  /** The item belongs to persisting the answer. */
  predicate Settling(x: Item) { (x.Finish? && x.status == Complete) || x == Waited(Bookkeeping) }

  /** What is raised at a suspension.  When an answer is persisted, a missing turn is an error. */
  function Raises(w: World, i: nat, x: Item): Signal {
    match x
    case Emitted(_, _) => w.wake(i)
    case Waited(_) => w.wake(i)
    case Update(_) => if w.store(i).StoreRaises? then Raised(w.store(i).exc) else Normal
    case Finish(status, _) =>
      if w.store(i).StoreRaises? then Raised(w.store(i).exc)
      else if w.store(i).NoSuchTurn? && status == Complete then Raised(OrdinaryError)
      else Normal
  }

  predicate Applied(reply: StoreReply) { reply.Done? || (reply.StoreRaises? && reply.applied) }

  /** The user's cancel may land. */
  function Ticked(w: World, n: nat, t: Turn): Turn { if w.cancels(n) then AfterCancel(t) else t }

  /** The stored turn after the suspension with number `n`. */
  function Next(w: World, n: nat, t: Turn, x: Item): Turn {
    var now := Ticked(w, n, t);
    if x.Update? && Applied(w.store(n)) then AfterUpdate(now, x.content)
    else if x.Finish? && Applied(w.store(n)) then AfterFinish(now, x.status, x.content)
    else now
  }

  function Initial(w: World): Turn { if w.begin.Begun? then w.begin.turn else Turn(Pending, "") }

  /** The turn in the store: what begin_turn found, the user's cancels, and the calls that took effect. */
  function Stored(w: World, trace: seq<Item>): Turn {
    if trace == [] then Initial(w)
    else
      var n := |trace| - 1;
      Next(w, n, Stored(w, trace[..n]), trace[n])
  }

  function Emissions(trace: seq<Item>): nat {
    if trace == [] then 0
    else Emissions(trace[..|trace| - 1]) + if trace[|trace| - 1].Emitted? then 1 else 0
  }

  /** The events emitted so far. */
  function Events(trace: seq<Item>): seq<Event> {
    if trace == [] then []
    else
      var last := trace[|trace| - 1];
      Events(trace[..|trace| - 1]) + if last.Emitted? then [last.event] else []
  }

  /** The text of the chunks emitted so far. */
  function ChunkText(trace: seq<Item>): string {
    if trace == [] then ""
    else ChunkText(trace[..|trace| - 1]) + ChunkOf(trace[|trace| - 1])
  }

  function ChunkOf(x: Item): string { if x.Emitted? && x.event.Chunk? then x.event.text else "" }

  /** One step for each phase, when it is first mentioned. */
  function StepsOf(phases: seq<string>): seq<Event> {
    if phases == [] then []
    else
      var n := |phases| - 1;
      StepsOf(phases[..n]) + if phases[n] in phases[..n] then [] else [StepEvent(phases[n])]
  }

  const ACKNOWLEDGED := [Started, StepEvent("understand_task")]

  /** What the client is shown before the answer. */
  function Preamble(phases: seq<string>, asksUser: bool): seq<Event> {
    ACKNOWLEDGED + StepsOf(phases) + if asksUser then [InputRequired] else []
  }

  function Script(w: World): seq<Event> {
    if w.execution.Executed? then Preamble(w.execution.phases, w.execution.asksUser) else ACKNOWLEDGED
  }

  // ---- what may happen when ----

  /** Nothing was raised, and every finish_turn was carried out; the user may still have cancelled at any time. */
  ghost predicate Clean(w: World, trace: seq<Item>) {
    w.snapshot.Normal? && forall i :: 0 <= i < |trace| ==> Smooth(w, i, trace[i])
  }

  predicate Smooth(w: World, i: nat, x: Item) { Raises(w, i, x).Normal? && (x.Finish? ==> w.store(i).Done?) }

  /** And the user did not cancel. */
  ghost predicate Calm(w: World, trace: seq<Item>) { Clean(w, trace) && !Cancelled(w, |trace|) }

  /** The user's cancel landed at one of the first suspensions. */
  ghost predicate Cancelled(w: World, n: nat) { exists i: nat :: i < n && w.cancels(i) }

  /** The turn is begun, or not durable at all. */
  predicate Starts(w: World) { w.begin.Begun? || w.begin.NotDurable? }

  /** And the workflow answers. */
  predicate Runs(w: World) {
    Starts(w) && w.execution.Executed? && (w.execution.answer == "" || 1 <= w.chunkSize)
  }

  /** The configured chunk size is refused. */
  predicate Unchunkable(w: World) { w.execution.Executed? && w.execution.answer != "" && w.chunkSize <= 0 }

  /** Something went wrong. */
  ghost predicate Broken(w: World, trace: seq<Item>) { !Clean(w, trace) || !Runs(w) }

  /** What may follow a suspension that raised: the turn is ended, and an ordinary error is reported.  A failure to
      persist the answer is followed by the bookkeeping, and reported as such. */
  predicate MayFollow(x: Item, exc: Exc, y: Item) {
    || (y.Finish? && y.status != Complete)
    || (if Settling(x)
        then y == Waited(Bookkeeping) || (y.Emitted? && y.event == Error(PersistenceFailed)) || IsFallback(y)
        else exc == OrdinaryError && IsFallback(y))
  }

  ghost predicate Admits(w: World, before: seq<Item>, x: Item) {
    forall i :: 0 <= i < |before| && Raises(w, i, before[i]).Raised? ==>
                  MayFollow(before[i], Raises(w, i, before[i]).exc, x)
  }

  /** Events come in the order of the script; an answer is shown piece by piece, each piece after looking for the user's
      cancel in vain; a final event tells what was shown. */
  ghost predicate Fits(w: World, before: seq<Item>, e: Event) {
    match e
    case Chunk(text) =>
      && w.execution.Executed? && Script(w) <= Events(before)
      && ChunkText(before) + text <= StripStart(w.execution.answer)
      && (w.begin.Begun? ==>
            before != [] && before[|before| - 1] == Waited(Poll) && Stored(w, before).status != Stopped)
    case Error(code) => Justified(w, before, code)
    case ResponseStopped(text) => text == ChunkText(before)
    case ResponseComplete(text) => IsAnswer(w, text) && StripStart(text) == ChunkText(before)
    case _ => Events(before) + [e] <= Script(w)
  }

  predicate IsAnswer(w: World, text: string) { w.execution.Executed? && text == w.execution.answer }

  ghost predicate Justified(w: World, before: seq<Item>, code: Code) {
    match code
    case InvalidReplayTarget => w.begin.Conflict? && w.isReplay && before == []
    case TurnConflict => w.begin.Conflict? && !w.isReplay && before == []
    case ExecutionFailed => w.execution == ExecutionRaises(OrdinaryError)
    case PersistenceFailed => !Clean(w, before)
    case StreamIncomplete => Broken(w, before)
  }

  /** Events are numbered 1, 2, 3, ...; whatever is stored of an unfinished answer is what was emitted of it; and a turn
      is failed only when something went wrong, stopped only then or when the user cancelled. */
  ghost predicate Says(w: World, before: seq<Item>, x: Item) {
    match x
    case Emitted(n, e) => n == Emissions(before) + 1 && Fits(w, before, e)
    case Update(content) => content == ChunkText(before)
    case Finish(status, content) =>
      status in {Complete, Failed, Stopped}
      && if status == Complete then IsAnswer(w, content) && StripStart(content) == ChunkText(before)
      else content == ChunkText(before)
           && (Broken(w, before) || (status == Stopped && Stored(w, before).status == Stopped))
    case Waited(_) => true
  }

  ghost predicate Follows(w: World, before: seq<Item>, x: Item) { Says(w, before, x) && Admits(w, before, x) }

  ghost predicate Sane(w: World, trace: seq<Item>) {
    forall i :: 0 <= i < |trace| ==> Follows(w, trace[..i], trace[i])
  }

  ghost predicate Attempted(trace: seq<Item>) {
    exists i :: 0 <= i < |trace| && trace[i].Finish?
  }

  ghost predicate NoTerminal(trace: seq<Item>) {
    forall i :: 0 <= i < |trace| ==> !IsTerminal(trace[i])
  }

  /** After a terminal event nothing is emitted, unless an ordinary exception is thrown at that event's own yield: then,
      and only then, the fallback error follows directly. */
  ghost predicate EndsOnce(w: World, trace: seq<Item>) {
    && (forall i, j :: 0 <= i < j < |trace| && IsTerminal(trace[i]) && trace[j].Emitted? ==>
          !IsFallback(trace[i]) && w.wake(i) == Raised(OrdinaryError) && j == i + 1 && IsFallback(trace[j]))
    && (forall i :: 0 <= i < |trace| && IsTerminal(trace[i]) && !IsFallback(trace[i])
                    && w.wake(i) == Raised(OrdinaryError) ==>
          i + 1 < |trace| && IsFallback(trace[i + 1]))
  }

  /** The terminal event is the only one and the last exactly when no ordinary exception is thrown at its yield. */
  lemma OneTerminalExactly(w: World, trace: seq<Item>)
    requires EndsOnce(w, trace)
    ensures (forall i, j :: 0 <= i < j < |trace| && IsTerminal(trace[i]) ==> !trace[j].Emitted?) <==>
            (forall i :: 0 <= i < |trace| && IsTerminal(trace[i]) && !IsFallback(trace[i]) ==>
               w.wake(i) != Raised(OrdinaryError))
  {
    hide IsTerminal;
    if i :| 0 <= i < |trace| && IsTerminal(trace[i]) && !IsFallback(trace[i]) && w.wake(i) == Raised(OrdinaryError) {
      assert IsFallback(trace[i + 1]);
      assert !(IsTerminal(trace[i]) ==> !trace[i + 1].Emitted?);
    }
  }

  // ---- the generator's local variables ----

  /** With the turn in the store. */
  datatype Local = Local(trace: seq<Item>, sequence: nat, turn: Turn, handle: Option<TurnStatus>, finalized: bool,
                         partial: string, turnStatus: Option<TurnStatus>)

  function HandleOf(w: World): Option<TurnStatus> { if w.begin.Begun? then Some(w.begin.turn.status) else None }

  ghost predicate Good(w: World, s: Local) { Tracked(w, s) && s.partial == ChunkText(s.trace) }

  ghost predicate Tracked(w: World, s: Local) {
    && Sane(w, s.trace) && s.sequence == Emissions(s.trace) && s.turn == Stored(w, s.trace)
    && (s.finalized ==> Attempted(s.trace))
    && s.handle == HandleOf(w)
    && (s.handle.Some? ==> Evolved(s.handle.value, s.turn.status, Attempted(s.trace)))
  }

  /** From the status in the handle: a turn that had ended is as it was, and no other ends before finish_turn is called,
      but by the user's cancel. */
  predicate Evolved(handle: TurnStatus, status: TurnStatus, attempted: bool) {
    if IsOpen(handle) then attempted || IsOpen(status) || status == Stopped else status == handle
  }

  /** What the events say of the turn is what is stored.  The exception: a turn that had failed or was superseded when
      its identifier was sent again is reported complete. */
  ghost predicate Agrees(s: Local, x: Item) {
    x.Emitted? ==>
      && (x.event.ResponseStopped? ==> s.handle.Some? && s.turn.status == Stopped)
      && (x.event.ResponseComplete? && s.handle.Some? ==>
            if s.handle.value in {Failed, Superseded} then s.turn.status == s.handle.value
            else s.turn.status == Complete && (IsOpen(s.handle.value) ==> s.turn.content == x.event.text))
  }

  ghost predicate AllAgree(s: Local) {
    forall i :: 0 <= i < |s.trace| ==> Agrees(s, s.trace[i])
  }

  predicate IsCompletion(x: Item) { x.Emitted? && x.event.ResponseComplete? }

  // ---- one more item ----

  lemma Traced(w: World, trace: seq<Item>, x: Item)
    requires Sane(w, trace) && Follows(w, trace, x)
    ensures Sane(w, trace + [x])
  {
    var longer := trace + [x];
    hide Follows;
    forall i | 0 <= i < |longer|
      ensures Follows(w, longer[..i], longer[i])
    {
      if i < |trace| {
        assert longer[..i] == trace[..i];
      } else {
        assert longer[..i] == trace && longer[i] == x;
      }
    }
  }

  lemma Counted(w: World, trace: seq<Item>, x: Item)
    ensures Emissions(trace + [x]) == Emissions(trace) + if x.Emitted? then 1 else 0
    ensures ChunkText(trace + [x]) == ChunkText(trace) + ChunkOf(x)
    ensures Events(trace + [x]) == Events(trace) + if x.Emitted? then [x.event] else []
    ensures Stored(w, trace + [x]) == Next(w, |trace|, Stored(w, trace), x)
    ensures Attempted(trace + [x]) <==> Attempted(trace) || x.Finish?
    ensures NoTerminal(trace + [x]) <==> NoTerminal(trace) && !IsTerminal(x)
    ensures Clean(w, trace + [x]) <==> Clean(w, trace) && Smooth(w, |trace|, x)
  {
    assert (trace + [x])[..|trace|] == trace && (trace + [x])[|trace|] == x;
    AttemptedMore(trace, x);
    NoTerminalMore(trace, x);
    CleanMore(w, trace, x);
    hide Next, IsTerminal, Smooth, ChunkOf, Attempted, NoTerminal, Clean;
  }

  lemma AttemptedMore(trace: seq<Item>, x: Item)
    ensures Attempted(trace + [x]) <==> Attempted(trace) || x.Finish?
  {
    var longer := trace + [x];
    assert longer[|trace|] == x;
    if Attempted(trace) {
      var i :| 0 <= i < |trace| && trace[i].Finish?;
      assert longer[i].Finish?;
    }
  }

  lemma NoTerminalMore(trace: seq<Item>, x: Item)
    ensures NoTerminal(trace + [x]) <==> NoTerminal(trace) && !IsTerminal(x)
  {
    hide IsTerminal;
    var longer := trace + [x];
    assert longer[|trace|] == x && forall i :: 0 <= i < |trace| ==> longer[i] == trace[i];
  }

  lemma CleanMore(w: World, trace: seq<Item>, x: Item)
    ensures Clean(w, trace + [x]) <==> Clean(w, trace) && Smooth(w, |trace|, x)
  {
    hide Smooth;
    var longer := trace + [x];
    assert longer[|trace|] == x && forall i :: 0 <= i < |trace| ==> longer[i] == trace[i];
  }

  /** Only finish_turn ends a turn, but for the user's cancel. */
  lemma NextLater(w: World, n: nat, t: Turn, x: Item)
    requires x.Finish? ==> !IsOpen(x.status)
    ensures Later(t, Next(w, n, t, x))
    ensures !x.Finish? ==> var after := Next(w, n, t, x).status; IsOpen(after) || after == t.status || after == Stopped
    ensures !w.cancels(n) && !x.Finish? ==> (Next(w, n, t, x).status == Stopped <==> t.status == Stopped)
    ensures (x.Emitted? || x.Waited?) && !w.cancels(n) ==> Next(w, n, t, x) == t
  {
  }

  /** The local variables after a suspension. */
  function Advanced(w: World, s: Local, x: Item): (after: Local)
    requires Tracked(w, s) && Follows(w, s.trace, x) && s.partial == ChunkText(s.trace) + ChunkOf(x)
    requires x.Finish? ==> !IsOpen(x.status)
    ensures Good(w, after) && Later(s.turn, after.turn) && (Attempted(after.trace) <==> Attempted(s.trace) || x.Finish?)
    ensures after == s.(trace := s.trace + [x], turn := Next(w, |s.trace|, s.turn, x), sequence := after.sequence)
  {
    var after := s.(trace := s.trace + [x], turn := Next(w, |s.trace|, s.turn, x),
                    sequence := if x.Emitted? then s.sequence + 1 else s.sequence);
    Advances(w, s, x, after);
    after
  }

  lemma Advances(w: World, s: Local, x: Item, after: Local)
    requires Tracked(w, s) && Follows(w, s.trace, x) && s.partial == ChunkText(s.trace) + ChunkOf(x)
    requires x.Finish? ==> !IsOpen(x.status)
    requires after == s.(trace := s.trace + [x], turn := Next(w, |s.trace|, s.turn, x),
                         sequence := if x.Emitted? then s.sequence + 1 else s.sequence)
    ensures Good(w, after) && Later(s.turn, after.turn) && (Attempted(after.trace) <==> Attempted(s.trace) || x.Finish?)
  {
    Traced(w, s.trace, x);
    Counted(w, s.trace, x);
    NextLater(w, |s.trace|, s.turn, x);
    hide Sane, Attempted, Emissions, ChunkText, Follows, Next, Stored, Events, NoTerminal, Clean, ChunkOf;
  }

  lemma CleanBefore(w: World, trace: seq<Item>, longer: seq<Item>)
    requires trace <= longer
    ensures Clean(w, longer) ==> Clean(w, trace)
    ensures Calm(w, longer) ==> Calm(w, trace) && Clean(w, longer)
    ensures Broken(w, trace) ==> Broken(w, longer)
  {
    hide Smooth;
    assert forall i :: 0 <= i < |trace| ==> trace[i] == longer[i];
  }

  lemma {:induction false} EventsGrow(w: World, trace: seq<Item>, longer: seq<Item>)
    requires trace <= longer
    ensures Events(trace) <= Events(longer)
  {
    if trace == longer {
    } else {
      var n := |longer| - 1;
      EventsGrow(w, trace, longer[..n]);
      assert longer == longer[..n] + [longer[n]];
      Counted(w, longer[..n], longer[n]);
    }
  }

  // ---- what was raised ----

  ghost predicate Unraised(w: World, trace: seq<Item>) {
    forall i :: 0 <= i < |trace| ==> Raises(w, i, trace[i]).Normal?
  }

  /** A later ordinary error of the bookkeeping has taken the place of what was raised. */
  ghost predicate Overridden(w: World, trace: seq<Item>, i: nat) {
    exists j :: i < j < |trace| && trace[j] == Waited(Bookkeeping) && w.wake(j) == Raised(OrdinaryError)
  }

  /** What was raised while the answer was persisted is an ordinary error by now. */
  ghost predicate Masked(w: World, trace: seq<Item>) {
    forall i :: 0 <= i < |trace| && Raises(w, i, trace[i]).Raised? ==>
                  Settling(trace[i]) && (Raises(w, i, trace[i]).exc == OrdinaryError || Overridden(w, trace, i))
  }

  /** What was raised is what goes on upwards, but for that. */
  ghost predicate Escapes(w: World, trace: seq<Item>, signal: Signal) {
    forall i :: 0 <= i < |trace| && Raises(w, i, trace[i]).Raised? ==> Escape(w, trace, signal, i)
  }

  ghost predicate Escape(w: World, trace: seq<Item>, signal: Signal, i: nat)
    requires i < |trace| && Raises(w, i, trace[i]).Raised?
  {
    var r := Raises(w, i, trace[i]);
    if Settling(trace[i]) then
      r.exc == OrdinaryError || Overridden(w, trace, i) || (signal.Raised? && signal.exc != OrdinaryError)
    else signal == r
  }

  /** A cancelled task or a closed generator is never taken for a normal end, but for that. */
  ghost predicate Unswallowed(w: World, trace: seq<Item>, signal: Signal) {
    forall i :: 0 <= i < |trace| && Raises(w, i, trace[i]).Raised? && Raises(w, i, trace[i]).exc != OrdinaryError ==>
                  signal.Raised? || Overridden(w, trace, i)
  }

  lemma OverriddenLater(w: World, trace: seq<Item>, x: Item, i: nat)
    requires Overridden(w, trace, i)
    ensures Overridden(w, trace + [x], i)
  {
    var j :| i < j < |trace| && trace[j] == Waited(Bookkeeping) && w.wake(j) == Raised(OrdinaryError);
    assert (trace + [x])[j] == trace[j];
  }

  lemma UnraisedIsMasked(w: World, trace: seq<Item>)
    requires Unraised(w, trace)
    ensures Masked(w, trace) && forall x :: Admits(w, trace, x)
  {
    hide Raises, Settling;
  }

  /** An item of the stream's body, after errors that were dealt with. */
  lemma RaisedHere(w: World, trace: seq<Item>, x: Item)
    requires Masked(w, trace)
    ensures Escapes(w, trace + [x], Raises(w, |trace|, x))
    ensures Raises(w, |trace|, x).Normal? ==> Masked(w, trace + [x])
    ensures Raises(w, |trace|, x).Normal? && Unraised(w, trace) ==> Unraised(w, trace + [x])
    ensures Raises(w, |trace|, x).Raised? ==> !Clean(w, trace + [x])
  {
    var longer := trace + [x];
    assert longer[|trace|] == x;
    if Raises(w, |trace|, x).Raised? {
      assert !Smooth(w, |trace|, longer[|trace|]);
    }
    hide Raises, Settling, Overridden, Smooth;
    forall i | 0 <= i < |trace| && Raises(w, i, trace[i]).Raised?
      ensures longer[i] == trace[i] && Settling(longer[i])
      ensures Raises(w, i, trace[i]).exc == OrdinaryError || Overridden(w, longer, i)
    {
      if Overridden(w, trace, i) {
        OverriddenLater(w, trace, x, i);
      }
    }
    assert forall i :: 0 <= i < |trace| ==> longer[i] == trace[i];
  }

  /** The bookkeeping's own failure replaces an earlier one. */
  lemma BookkeepingRaises(w: World, trace: seq<Item>, signal: Signal)
    requires OnlySettling(w, trace) && Escapes(w, trace, signal)
    ensures var recorded := w.wake(|trace|);
            var longer := trace + [Waited(Bookkeeping)];
            OnlySettling(w, longer) && Escapes(w, longer, if recorded.Raised? then recorded else signal)
  {
    var x, recorded := Waited(Bookkeeping), w.wake(|trace|);
    var longer := trace + [x];
    var later := if recorded.Raised? then recorded else signal;
    assert longer[|trace|] == x && Settling(x) && Raises(w, |trace|, x) == recorded;
    forall i | 0 <= i < |longer| && Raises(w, i, longer[i]).Raised?
      ensures Settling(longer[i]) && Escape(w, longer, later, i)
    {
      hide Raises, Settling;
      if i < |trace| {
        assert longer[i] == trace[i];
        assert Escape(w, trace, signal, i);
        if Overridden(w, trace, i) {
          OverriddenLater(w, trace, x, i);
        }
      }
    }
  }

  ghost predicate OnlySettling(w: World, trace: seq<Item>) {
    forall i :: 0 <= i < |trace| && Raises(w, i, trace[i]).Raised? ==> Settling(trace[i])
  }

  /** An ordinary error masks what was raised before while the answer was persisted. */
  lemma OrdinaryMasks(w: World, trace: seq<Item>)
    requires OnlySettling(w, trace) && Escapes(w, trace, Raised(OrdinaryError))
    ensures Masked(w, trace)
  {
    hide Raises, Settling, Overridden;
    forall i | 0 <= i < |trace| && Raises(w, i, trace[i]).Raised?
      ensures Settling(trace[i]) && (Raises(w, i, trace[i]).exc == OrdinaryError || Overridden(w, trace, i))
    {
      assert Escape(w, trace, Raised(OrdinaryError), i);
    }
  }

  // ---- what may follow ----

  lemma EndingFollows(w: World, trace: seq<Item>, status: TurnStatus)
    requires status in {Stopped, Failed}
    requires Broken(w, trace) || (status == Stopped && Stored(w, trace).status == Stopped)
    ensures Follows(w, trace, Finish(status, ChunkText(trace)))
  {
    hide ChunkText, Stored, Raises, Broken;
  }

  lemma FailureFollows(w: World, trace: seq<Item>, code: Code, n: nat)
    requires n == Emissions(trace) + 1 && Justified(w, trace, code) && OnlySettling(w, trace)
    requires code == PersistenceFailed || Unraised(w, trace)
    ensures Follows(w, trace, Emitted(n, Error(code)))
  {
    hide ChunkText, Stored, Raises, Broken, Justified, Emissions;
  }

  lemma FallbackFollows(w: World, trace: seq<Item>, n: nat)
    requires n == Emissions(trace) + 1 && Broken(w, trace) && Escapes(w, trace, Raised(OrdinaryError))
    ensures Follows(w, trace, Emitted(n, Error(StreamIncomplete)))
  {
    hide ChunkText, Stored, Raises, Broken, Emissions, Overridden;
    forall i | 0 <= i < |trace| && Raises(w, i, trace[i]).Raised?
      ensures MayFollow(trace[i], Raises(w, i, trace[i]).exc, Emitted(n, Error(StreamIncomplete)))
    {
      assert Escape(w, trace, Raised(OrdinaryError), i);
    }
  }

  // ---- suspensions ----

  /** Await something else. */
  method Pause(w: World, s: Local, why: Wait) returns (after: Local, signal: Signal)
    requires Good(w, s) && Admits(w, s.trace, Waited(why))
    ensures Good(w, after) && Later(s.turn, after.turn) && (Attempted(after.trace) <==> Attempted(s.trace))
    ensures after == s.(trace := s.trace + [Waited(why)], turn := Next(w, |s.trace|, s.turn, Waited(why)))
    ensures signal == w.wake(|s.trace|)
  {
    GoodIsTracked(w, s);
    hide Good, Tracked, Attempted, ChunkText, Admits, Later, Next;
    after, signal := Advanced(w, s, Waited(why)), w.wake(|s.trace|);
  }

  /** Number and yield an event; the consumer may throw at the yield. */
  method Emit(w: World, s: Local, e: Event) returns (after: Local, signal: Signal)
    requires Tracked(w, s) && Follows(w, s.trace, Emitted(s.sequence + 1, e))
    requires s.partial == ChunkText(s.trace) + ChunkOf(Emitted(0, e))
    ensures Good(w, after) && Later(s.turn, after.turn) && (Attempted(after.trace) <==> Attempted(s.trace))
    ensures var x := Emitted(s.sequence + 1, e);
            after == s.(trace := s.trace + [x], sequence := s.sequence + 1, turn := Next(w, |s.trace|, s.turn, x))
    ensures signal == w.wake(|s.trace|)
  {
    var x := Emitted(s.sequence + 1, e);
    SequenceAdvances(w, s, x);
    hide Good, Tracked, Attempted, ChunkText, Follows, Later, Next;
    after, signal := Advanced(w, s, x), w.wake(|s.trace|);
  }

  lemma SequenceAdvances(w: World, s: Local, x: Item)
    requires Tracked(w, s) && Follows(w, s.trace, x) && s.partial == ChunkText(s.trace) + ChunkOf(x) && x.Emitted?
    ensures Advanced(w, s, x).sequence == s.sequence + 1
  {
    hide Good, Tracked, Attempted, ChunkText, Follows, Later, Next;
  }

  /** Call finish_turn; its answer is the status in force. */
  method FinishTurn(w: World, s: Local, status: TurnStatus, content: string)
    returns (after: Local, final: Option<TurnStatus>, signal: Signal)
    requires Good(w, s) && s.handle.Some? && !IsOpen(status) && status != Superseded
    requires Follows(w, s.trace, Finish(status, content))
    ensures Good(w, after) && Later(s.turn, after.turn) && Attempted(after.trace)
    ensures var x := Finish(status, content);
            after == s.(trace := s.trace + [x], turn := Next(w, |s.trace|, s.turn, x))
    ensures final.Some? <==> w.store(|s.trace|).Done?
    ensures signal == if w.store(|s.trace|).StoreRaises? then Raised(w.store(|s.trace|).exc) else Normal
    ensures final.Some? ==> final.value == after.turn.status && !IsOpen(final.value)
    // the user's cancel wins, also when it lands at this very call
    ensures final.Some? ==>
              final.value == if s.turn.status == Stopped || (IsOpen(s.turn.status) && w.cancels(|s.trace|)) then Stopped
                             else if IsOpen(s.turn.status) then status
                             else s.turn.status
    ensures final == Some(Complete) && IsOpen(s.turn.status) ==> after.turn.content == content
    ensures final.Some? && !Attempted(s.trace) && IsOpen(s.handle.value) ==>
              final.value in {status, Stopped} && (final.value == Complete ==> after.turn.content == content)
  {
    var x, n := Finish(status, content), |s.trace|;
    hide Good, Tracked, Attempted, ChunkText, Follows, Later, Next, Stored, Emissions;
    GoodIsTracked(w, s);
    TurnEvolves(w, s);
    InForce(w, n, s.turn, status, content);
    after := Advanced(w, s, x);
    var reply := w.store(n);
    final := if reply.Done? then Some(after.turn.status) else None;
    signal := if reply.StoreRaises? then Raised(reply.exc) else Normal;
  }

  lemma TurnEvolves(w: World, s: Local)
    requires Good(w, s) && s.handle.Some?
    ensures Evolved(s.handle.value, s.turn.status, Attempted(s.trace))
  {
    hide Sane, Attempted, ChunkText, Stored, Emissions;
  }

  lemma InForce(w: World, n: nat, t: Turn, status: TurnStatus, content: string)
    requires !IsOpen(status)
    ensures w.store(n).Done? ==>
              var after := Next(w, n, t, Finish(status, content));
              && after.status == (if t.status == Stopped || (IsOpen(t.status) && w.cancels(n)) then Stopped
                                  else if IsOpen(t.status) then status
                                  else t.status)
              && (after.status == Complete && IsOpen(t.status) ==> after.content == content)
  {
  }

  /** End the turn early with what was emitted so far; without a durable turn there is nothing to end. */
  method Interrupt(w: World, s: Local, status: TurnStatus) returns (after: Local, signal: Signal)
    requires Good(w, s) && status in {Stopped, Failed}
    requires Broken(w, s.trace) || (status == Stopped && s.turn.status == Stopped)
    ensures Good(w, after) && Later(s.turn, after.turn) && after == s.(trace := after.trace, turn := after.turn)
    ensures s.handle.None? ==> after == s && signal.Normal?
    ensures s.handle.Some? ==>
              var x := Finish(status, s.partial);
              && after.trace == s.trace + [x] && signal == Raises(w, |s.trace|, x) && Attempted(after.trace)
              && after.turn == Next(w, |s.trace|, s.turn, x)
  {
    hide Good, Tracked, Attempted, Follows, ChunkText, Stored, Broken, Next, Later, Emissions;
    GoodIsTracked(w, s);
    EndingFollows(w, s.trace, status);
    after, signal := s, Normal;
    assert Later(s.turn, s.turn) by { AlwaysLater(s.turn); }
    if s.handle.Some? {
      var final;
      after, final, signal := FinishTurn(w, s, status, s.partial);
    }
  }

  lemma AlwaysLater(t: Turn)
    ensures Later(t, t)
  {
  }

  lemma GoodIsTracked(w: World, s: Local)
    requires Good(w, s)
    ensures Tracked(w, s) && s.partial == ChunkText(s.trace) && s.partial == ChunkText(s.trace) + ""
    ensures s.turn == Stored(w, s.trace) && s.handle == HandleOf(w) && s.sequence == Emissions(s.trace)
  {
    assert ChunkText(s.trace) + "" == ChunkText(s.trace);
  }

  // ---- the phases of the stream ----

  /** Still streaming: nothing terminal was emitted, finish_turn was not called, and nothing was raised. */
  ghost predicate Running(w: World, s: Local) { Good(w, s) && Fresh(w, s) }

  ghost predicate Fresh(w: World, s: Local) {
    NoTerminal(s.trace) && !Attempted(s.trace) && !s.finalized && s.turnStatus.None? && Unraised(w, s.trace)
  }

  /** The trace ends with the first terminal event, and with what was thrown at its yield. */
  ghost predicate Concluded(w: World, trace: seq<Item>, signal: Signal) {
    var n := |trace| - 1;
    && 0 <= n && NoTerminal(trace[..n]) && IsTerminal(trace[n]) && !IsFallback(trace[n]) && signal == w.wake(n)
  }

  /** The stream's body is over: it emitted its terminal event, or was interrupted before. */
  ghost predicate Ended(w: World, s: Local, signal: Signal) {
    && Good(w, s) && AllAgree(s) && Escapes(w, s.trace, signal) && (signal.Raised? ==> Broken(w, s.trace))
    && if Concluded(w, s.trace, signal) then s.handle.None? || s.finalized else signal.Raised? && NoTerminal(s.trace)
  }

  lemma InterruptedEnds(w: World, s: Local, signal: Signal)
    requires Good(w, s) && NoTerminal(s.trace) && signal.Raised?
    requires Escapes(w, s.trace, signal) && Broken(w, s.trace)
    ensures Ended(w, s, signal)
  {
    hide Good, IsTerminal, Escapes, Broken;
    assert forall i :: 0 <= i < |s.trace| ==> !IsTerminal(s.trace[i]);
    AgreesIfTerminalsDo(s);
  }

  ghost predicate OnlyTerminal(trace: seq<Item>, x: Item) {
    forall i :: 0 <= i < |trace| && IsTerminal(trace[i]) ==> trace[i] == x
  }

  lemma TerminalConcludes(w: World, before: seq<Item>, x: Item)
    requires NoTerminal(before) && IsTerminal(x) && !IsFallback(x)
    ensures Concluded(w, before + [x], w.wake(|before|)) && EndsSaying(before + [x], x.event)
    ensures OnlyTerminal(before + [x], x)
  {
    var trace := before + [x];
    assert trace[..|before|] == before && trace[|before|] == x;
    assert forall i :: 0 <= i < |before| ==> trace[i] == before[i] && !IsTerminal(before[i]);
  }

  /** Only terminal events say anything of the stored turn. */
  lemma AgreesIfTerminalsDo(s: Local)
    requires forall i :: 0 <= i < |s.trace| && IsTerminal(s.trace[i]) ==> Agrees(s, s.trace[i])
    ensures AllAgree(s)
  {
    forall i | 0 <= i < |s.trace|
      ensures Agrees(s, s.trace[i])
    {
      if IsTerminal(s.trace[i]) {
      }
    }
  }

  lemma AgreesIfItDoes(s: Local, x: Item)
    requires OnlyTerminal(s.trace, x) && Agrees(s, x)
    ensures AllAgree(s)
  {
    hide Agrees, IsTerminal;
    AgreesIfTerminalsDo(s);
  }

  lemma StillAgrees(s: Local, after: Local, x: Item)
    requires Agrees(s, x) && Later(s.turn, after.turn) && after.handle == s.handle
    ensures Agrees(after, x)
  {
  }

  predicate EndsSaying(trace: seq<Item>, e: Event) {
    trace != [] && trace[|trace| - 1].Emitted? && trace[|trace| - 1].event == e
  }

  /** Emit the terminal event. */
  method Conclude(w: World, s: Local, e: Event) returns (after: Local, signal: Signal)
    requires Good(w, s) && NoTerminal(s.trace) && (s.handle.None? || s.finalized) && Masked(w, s.trace)
    requires IsTerminal(Emitted(0, e)) && !IsFallback(Emitted(0, e)) && Agrees(s, Emitted(0, e))
    requires Follows(w, s.trace, Emitted(s.sequence + 1, e))
    ensures Ended(w, after, signal) && signal == w.wake(|s.trace|)
    ensures after.handle == s.handle && after.partial == s.partial
    ensures var x := Emitted(s.sequence + 1, e);
            after.trace == s.trace + [x] && after.turn == Next(w, |s.trace|, s.turn, x)
    ensures EndsSaying(after.trace, e) && (Clean(w, after.trace) ==> signal.Normal?)
  {
    GoodIsTracked(w, s);
    assert !e.Chunk?;
    hide Good, Tracked, ChunkText, Agrees, IsTerminal, IsFallback, NoTerminal, Attempted, Clean, Masked, Follows, Later;
    hide AllAgree, Ended, EndsSaying, Next;
    after, signal := Emit(w, s, e);
    TerminalEnds(w, s, e, after);
  }

  lemma NumberIsIrrelevant(s: Local, e: Event, n: nat)
    ensures IsTerminal(Emitted(n, e)) == IsTerminal(Emitted(0, e))
    ensures IsFallback(Emitted(n, e)) == IsFallback(Emitted(0, e))
    ensures Agrees(s, Emitted(n, e)) == Agrees(s, Emitted(0, e))
  {
  }

  lemma TerminalEnds(w: World, s: Local, e: Event, after: Local)
    requires NoTerminal(s.trace) && (s.handle.None? || s.finalized) && Masked(w, s.trace)
    requires IsTerminal(Emitted(0, e)) && !IsFallback(Emitted(0, e)) && Agrees(s, Emitted(0, e))
    requires Good(w, after) && Later(s.turn, after.turn) && after.handle == s.handle && after.finalized == s.finalized
    requires after.trace == s.trace + [Emitted(s.sequence + 1, e)]
    ensures Ended(w, after, w.wake(|s.trace|)) && EndsSaying(after.trace, e)
    ensures Clean(w, after.trace) ==> w.wake(|s.trace|).Normal?
  {
    var x := Emitted(s.sequence + 1, e);
    NumberIsIrrelevant(s, e, s.sequence + 1);
    RaisedHere(w, s.trace, x);
    assert Raises(w, |s.trace|, x) == w.wake(|s.trace|);
    hide Good, Agrees, IsTerminal, IsFallback, Concluded, NoTerminal, Later, AllAgree, EndsSaying, OnlyTerminal, Raises;
    hide Escapes, Masked, Clean, Runs, Unraised;
    TerminalConcludes(w, s.trace, x);
    StillAgrees(s, after, x);
    AgreesIfItDoes(after, x);
  }

  /** A part of the stream's body: it goes on, or it has been interrupted. */
  ghost predicate Keeps(w: World, s: Local, after: Local, signal: Signal) {
    && s.trace <= after.trace && after.handle == s.handle
    && (if signal.Normal? then Running(w, after) else Ended(w, after, signal))
    && (Clean(w, after.trace) ==> Clean(w, s.trace) && signal.Normal?)
    // without a cancel the turn is stopped only if it was
    && (Calm(w, after.trace) ==>
          Calm(w, s.trace) && Clean(w, after.trace) && (after.turn.status == Stopped <==> s.turn.status == Stopped))
  }

  /** An item that does not end the stream. */
  lemma Proceeds(w: World, s: Local, x: Item, after: Local)
    requires Fresh(w, s) && !IsTerminal(x) && !x.Finish?
    requires Good(w, after) && after.trace == s.trace + [x] && after.turn == Next(w, |s.trace|, s.turn, x)
    requires after.finalized == s.finalized && after.turnStatus == s.turnStatus && after.handle == s.handle
    ensures Keeps(w, s, after, Raises(w, |s.trace|, x))
  {
    CleanBefore(w, s.trace, after.trace);
    UnraisedIsMasked(w, s.trace);
    RaisedHere(w, s.trace, x);
    Counted(w, s.trace, x);
    NextLater(w, |s.trace|, s.turn, x);
    hide Good, IsTerminal, Raises, Escapes, Masked, Unraised, Clean, NoTerminal, Attempted, Emissions, ChunkText, Next;
    hide Stored, Events, Admits, Ended;
    if Raises(w, |s.trace|, x).Raised? {
      InterruptedEnds(w, after, Raises(w, |s.trace|, x));
    }
  }

  /** Emit an event that does not end the stream. */
  method Continue(w: World, s: Local, e: Event) returns (after: Local, signal: Signal)
    requires Tracked(w, s) && Fresh(w, s) && Fits(w, s.trace, e) && !IsTerminal(Emitted(0, e))
    requires s.partial == ChunkText(s.trace) + ChunkOf(Emitted(0, e))
    ensures Keeps(w, s, after, signal) && after.partial == s.partial
    ensures Events(after.trace) == Events(s.trace) + [e]
  {
    var x := Emitted(s.sequence + 1, e);
    UnraisedIsMasked(w, s.trace);
    assert Follows(w, s.trace, x);
    assert !IsTerminal(x) && Raises(w, |s.trace|, x) == w.wake(|s.trace|);
    Counted(w, s.trace, x);
    hide Good, Tracked, Fresh, ChunkText, Attempted, Clean, Calm, Keeps, Events, NoTerminal, IsTerminal, Follows, Fits;
    hide Emissions, Stored, Next, Raises, Masked, Admits, Ended, Running, Later, ChunkOf;
    after, signal := Emit(w, s, e);
    Proceeds(w, s, x, after);
  }

  function RefusalCode(w: World): Code { if w.isReplay then InvalidReplayTarget else TurnConflict }

  /** The local variables when begin_turn has answered. */
  function Entering(w: World): (s: Local)
    ensures Running(w, s) && s.partial == "" && s.trace == [] && s.handle == HandleOf(w) && s.turn == Initial(w)
    ensures s.sequence == 0
  {
    Local([], 0, Initial(w), HandleOf(w), false, "", None)
  }

  /** Refuse a turn that cannot be begun. */
  method Refuse(w: World) returns (s: Local, signal: Signal)
    requires w.begin.Conflict?
    ensures Ended(w, s, signal) && s.handle.None? && s.trace == [Emitted(1, Error(RefusalCode(w)))]
    ensures Clean(w, s.trace) ==> signal.Normal?
  {
    s := Entering(w);
    var code := RefusalCode(w);
    assert Agrees(s, Emitted(0, Error(code)));
    UnraisedIsMasked(w, []);
    FailureFollows(w, [], code, 1);
    hide Running, Ended, Good, Entering, NoTerminal, Clean, Agrees, Follows, Masked;
    assert Good(w, s) && NoTerminal(s.trace) by { RunningContinues(w, s); }
    s, signal := Conclude(w, s, Error(code));
  }

  /** The acknowledgement starts the script. */
  lemma StartFits(w: World, before: seq<Item>)
    ensures Events(before) == [] ==> Fits(w, before, Started)
    ensures Events(before) == [] + [Started] ==>
              Fits(w, before, StepEvent("understand_task"))
              && Events(before) + [StepEvent("understand_task")] == ACKNOWLEDGED
  {
    hide Events;
  }

  lemma NothingRaised(w: World, signal: Signal)
    ensures Escapes(w, [], signal) && Masked(w, []) && Unraised(w, [])
  {
  }

  /** Call begin_turn and acknowledge the request. */
  method Begin(w: World) returns (s: Local, signal: Signal)
    requires !w.begin.Conflict?
    ensures if signal.Normal? then Running(w, s) && s.partial == "" else Ended(w, s, signal)
    ensures s.handle == HandleOf(w)
    ensures w.begin.BeginRaises? ==> s.trace == [] && signal == Raised(w.begin.exc)
    ensures Clean(w, s.trace) && Starts(w) ==> signal.Normal?
    ensures Calm(w, s.trace) ==> (s.turn.status == Stopped <==> Initial(w).status == Stopped)
    ensures signal.Normal? ==> Events(s.trace) == ACKNOWLEDGED
  {
    assert Events([]) == [];
    hide Running, Ended, Good, Tracked, Fresh, Attempted, NoTerminal, ChunkText, Events, Entering, Script, Clean, Calm;
    hide Masked, Unraised, OnlySettling, Stored, Admits, Emissions, Escapes, Fits;
    s, signal := Entering(w), Normal;
    RunningContinues(w, s);
    StartFits(w, s.trace);
    CleanBefore(w, s.trace, s.trace);
    if w.begin.BeginRaises? {
      signal := Raised(w.begin.exc);
      NothingRaised(w, signal);
      InterruptedEnds(w, s, signal);
      return;
    }
    s, signal := Continue(w, s, Started);
    if signal.Normal? {
      StartFits(w, s.trace);
      RunningContinues(w, s);
      s, signal := Continue(w, s, StepEvent("understand_task"));
    }
  }

  lemma RunningContinues(w: World, s: Local)
    requires Running(w, s)
    ensures Good(w, s) && Tracked(w, s) && Fresh(w, s) && NoTerminal(s.trace) && !Attempted(s.trace) && !s.finalized
    ensures Unraised(w, s.trace) && Masked(w, s.trace) && OnlySettling(w, s.trace)
    ensures forall x :: Admits(w, s.trace, x)
    ensures s.partial == ChunkText(s.trace) + "" && s.partial == ChunkText(s.trace)
    ensures s.turn == Stored(w, s.trace) && s.handle == HandleOf(w) && s.turnStatus.None?
    ensures s.sequence == Emissions(s.trace)
  {
    assert ChunkText(s.trace) + "" == ChunkText(s.trace);
    UnraisedIsMasked(w, s.trace);
  }

  /** Run the workflow; its failure ends the turn as failed. */
  method Execute(w: World, s: Local) returns (after: Local, signal: Signal)
    requires Running(w, s)
    ensures after.handle == s.handle && s.trace <= after.trace
    ensures if w.execution.Executed? then signal.Normal? && after == s else Ended(w, after, signal)
    ensures w.execution.ExecutionRaises? && w.execution.exc != OrdinaryError ==>
              after == s && signal == Raised(w.execution.exc)
    ensures w.execution == ExecutionRaises(OrdinaryError) && Clean(w, after.trace) ==>
              Reported(s, Error(ExecutionFailed), after.trace, signal)
  {
    RunningContinues(w, s);
    hide Good, Tracked, Fresh, Attempted, NoTerminal, Ended, Clean, Masked, OnlySettling, Running, Stored, Admits;
    after, signal := s, Normal;
    if w.execution.ExecutionRaises? {
      if w.execution.exc == OrdinaryError {
        after, signal := Fail(w, s, ExecutionFailed);
      } else {
        signal := Raised(w.execution.exc);
        NothingEscapes(w, s.trace, signal);
        InterruptedEnds(w, after, signal);
      }
    }
  }

  lemma NothingEscapes(w: World, trace: seq<Item>, signal: Signal)
    requires Unraised(w, trace)
    ensures Escapes(w, trace, signal)
  {
    hide Raises;
  }

  /** The turn was stored as failed, and the client was told. */
  ghost predicate Reported(s: Local, e: Event, trace: seq<Item>, signal: Signal) {
    && signal.Normal? && EndsSaying(trace, e)
    && trace[..|trace| - 1] == s.trace + if s.handle.Some? then [Finish(Failed, s.partial)] else []
  }

  /** Store the failure, then report it; if it cannot be stored, the failure of the store goes on upwards. */
  method Fail(w: World, s: Local, code: Code) returns (after: Local, signal: Signal)
    requires Good(w, s) && NoTerminal(s.trace) && !s.finalized && code in {ExecutionFailed, PersistenceFailed}
    requires Masked(w, s.trace) && Justified(w, s.trace, code) && (code == PersistenceFailed || Unraised(w, s.trace))
    ensures after.handle == s.handle && Ended(w, after, signal) && s.trace <= after.trace
    ensures Clean(w, after.trace) ==> Reported(s, Error(code), after.trace, signal)
  {
    hide Good, Attempted, Clean, Escapes, Broken, Ended, NoTerminal, Masked, Unraised, Next, Raises, Follows, Later;
    hide Justified, OnlySettling, ChunkText, Emissions, Agrees, AllAgree, IsTerminal, IsFallback;
    FailureIsBroken(w, s.trace, code);
    after, signal := Interrupt(w, s, Failed);
    if s.handle.Some? {
      FailureStored(w, s, code, after.trace);
      if signal.Raised? {
        InterruptedEnds(w, after, signal);
        return;
      }
    }
    after := Finalized(w, after);
    ghost var ended := after.trace;
    FailureIsTold(w, after, code);
    after, signal := Conclude(w, after, Error(code));
    assert after.trace[..|after.trace| - 1] == ended;
  }

  /** The turn's end has been stored. */
  function Finalized(w: World, s: Local): (after: Local)
    requires Good(w, s) && (s.handle.Some? ==> Attempted(s.trace))
    ensures Good(w, after) && after == s.(finalized := s.handle.Some?) && after.sequence == Emissions(after.trace)
    ensures forall e :: Agrees(s, e) ==> Agrees(after, e)
    ensures AllAgree(s) ==> AllAgree(after)
  {
    s.(finalized := s.handle.Some?)
  }

  lemma FailureIsTold(w: World, s: Local, code: Code)
    requires Masked(w, s.trace) && Justified(w, s.trace, code) && (code == PersistenceFailed || Unraised(w, s.trace))
    requires s.sequence == Emissions(s.trace) && code in {ExecutionFailed, PersistenceFailed}
    ensures Follows(w, s.trace, Emitted(s.sequence + 1, Error(code))) && Agrees(s, Emitted(0, Error(code)))
    ensures IsTerminal(Emitted(0, Error(code))) && !IsFallback(Emitted(0, Error(code)))
  {
    MaskedSettles(w, s.trace);
    hide Masked, Justified, Unraised, OnlySettling, Follows, Emissions;
    FailureFollows(w, s.trace, code, s.sequence + 1);
  }

  lemma MaskedSettles(w: World, trace: seq<Item>)
    requires Masked(w, trace)
    ensures OnlySettling(w, trace)
  {
    hide Raises, Settling, Overridden;
  }

  lemma FailureIsBroken(w: World, trace: seq<Item>, code: Code)
    requires Justified(w, trace, code) && code in {ExecutionFailed, PersistenceFailed}
    ensures Broken(w, trace)
  {
    hide Clean;
  }

  lemma FailureStored(w: World, s: Local, code: Code, trace: seq<Item>)
    requires NoTerminal(s.trace) && Masked(w, s.trace) && Justified(w, s.trace, code)
    requires code in {ExecutionFailed, PersistenceFailed} && (code == PersistenceFailed || Unraised(w, s.trace))
    requires trace == s.trace + [Finish(Failed, s.partial)]
    ensures NoTerminal(trace) && Broken(w, trace) && Justified(w, trace, code)
    ensures var r := Raises(w, |s.trace|, Finish(Failed, s.partial));
            && Escapes(w, trace, r) && (Clean(w, trace) ==> r.Normal?)
            && (r.Normal? ==> Masked(w, trace) && (code == PersistenceFailed || Unraised(w, trace)))
  {
    var x := Finish(Failed, s.partial);
    RaisedHere(w, s.trace, x);
    Counted(w, s.trace, x);
    CleanBefore(w, s.trace, trace);
    hide Raises, Escapes, Masked, Unraised, Clean, NoTerminal, Attempted, Emissions, ChunkText, Next, Stored, Events;
  }

  ghost predicate Mentioned(seen: set<string>, phases: seq<string>) {
    forall p :: p in seen <==> p in phases
  }

  lemma StepsOfMore(phases: seq<string>, i: nat, seen: set<string>, shown: seq<Event>)
    requires i < |phases| && Mentioned(seen, phases[..i])
    ensures Mentioned(seen + {phases[i]}, phases[..i + 1])
    ensures phases[i] in seen ==>
              Mentioned(seen, phases[..i + 1]) && shown + StepsOf(phases[..i + 1]) == shown + StepsOf(phases[..i])
    ensures phases[i] !in seen ==>
              shown + StepsOf(phases[..i + 1]) == shown + StepsOf(phases[..i]) + [StepEvent(phases[i])]
  {
    assert phases[..i + 1] == phases[..i] + [phases[i]] && phases[..i + 1][..i] == phases[..i];
  }

  lemma {:induction false} StepsOfPrefix(phases: seq<string>, i: nat)
    requires i <= |phases|
    ensures StepsOf(phases[..i]) <= StepsOf(phases)
  {
    if i == |phases| {
      assert phases[..i] == phases;
    } else {
      StepsOfPrefix(phases[..|phases| - 1], i);
      assert phases[..|phases| - 1][..i] == phases[..i];
    }
  }

  /** The next phase is next in the script. */
  lemma PhaseFits(w: World, before: seq<Item>, i: nat)
    requires w.execution.Executed? && i < |w.execution.phases| && w.execution.phases[i] !in w.execution.phases[..i]
    requires Events(before) == ACKNOWLEDGED + StepsOf(w.execution.phases[..i])
    ensures Fits(w, before, StepEvent(w.execution.phases[i]))
  {
    var phases := w.execution.phases;
    StepsOfPrefix(phases, i + 1);
    assert phases[..i + 1][..i] == phases[..i];
    assert Events(before) + [StepEvent(phases[i])] == ACKNOWLEDGED + StepsOf(phases[..i + 1]);
    hide Events, StepsOf;
  }

  /** The completed phases of the workflow, each once. */
  method EmitPhases(w: World, s: Local, phases: seq<string>) returns (after: Local, signal: Signal)
    requires Running(w, s) && Events(s.trace) == ACKNOWLEDGED
    requires w.execution.Executed? && phases == w.execution.phases
    ensures Keeps(w, s, after, signal) && after.partial == s.partial
    ensures signal.Normal? ==> Events(after.trace) == ACKNOWLEDGED + StepsOf(phases)
  {
    var seen: set<string> := {};
    NoPhaseYet(w, s, phases);
    hide Running, Ended, Good, Tracked, Fresh, Attempted, NoTerminal, Clean, Calm, Events, StepsOf, Mentioned, Fits;
    hide ChunkText, Masked, Unraised, OnlySettling, Stored, Admits, Broken, Script;
    after, signal := s, Normal;
    for i := 0 to |phases|
      invariant Mentioned(seen, phases[..i])
      invariant Events(after.trace) == ACKNOWLEDGED + StepsOf(phases[..i])
      invariant Keeps(w, s, after, signal) && signal.Normal? && after.partial == s.partial
    {
      StepsOfMore(phases, i, seen, ACKNOWLEDGED);
      if phases[i] !in seen {
        NotMentioned(seen, phases[..i], phases[i]);
        PhaseFits(w, after.trace, i);
        seen := seen + {phases[i]};
        after, signal := ShowPhase(w, after, phases[i]);
        if signal.Raised? {
          return;
        }
      }
    }
    assert phases[..|phases|] == phases;
  }

  method ShowPhase(w: World, s: Local, phase: string) returns (after: Local, signal: Signal)
    requires Running(w, s) && Fits(w, s.trace, StepEvent(phase))
    ensures Keeps(w, s, after, signal) && after.partial == s.partial
    ensures Events(after.trace) == Events(s.trace) + [StepEvent(phase)]
  {
    hide Running, Ended, Good, Tracked, Fresh, Attempted, NoTerminal, Clean, Calm, Events, Fits, ChunkText, Admits;
    RunningContinues(w, s);
    after, signal := Continue(w, s, StepEvent(phase));
  }

  lemma NoPhaseYet(w: World, s: Local, phases: seq<string>)
    requires Running(w, s)
    ensures ACKNOWLEDGED == ACKNOWLEDGED + StepsOf(phases[..0]) && Mentioned({}, phases[..0])
    ensures Keeps(w, s, s, Normal)
  {
    CleanBefore(w, s.trace, s.trace);
    hide Running, Clean, Calm;
  }

  lemma NotMentioned(seen: set<string>, phases: seq<string>, p: string)
    requires Mentioned(seen, phases) && p !in seen
    ensures p !in phases
  {
  }

  /** What the client is shown of the workflow: its phases, and the question to the user if there is one. */
  method Announce(w: World, s: Local, phases: seq<string>, asksUser: bool) returns (after: Local, signal: Signal)
    requires Running(w, s) && Events(s.trace) == ACKNOWLEDGED
    requires w.execution.Executed? && phases == w.execution.phases && asksUser == w.execution.asksUser
    ensures Keeps(w, s, after, signal) && after.partial == s.partial
    ensures signal.Normal? ==> Events(after.trace) == Script(w)
  {
    hide Running, Ended, Good, Tracked, Fresh, Attempted, NoTerminal, Clean, Calm, Events, StepsOf;
    hide ChunkText, Masked, Unraised, OnlySettling, Stored, Admits;
    after, signal := EmitPhases(w, s, phases);
    if signal.Normal? && asksUser {
      RunningContinues(w, after);
      after, signal := Continue(w, after, InputRequired);
    }
  }

  predicate StoppedNow(s: Local) { s.handle.Some? && s.turn.status == Stopped }

  /** The store was asked just now, and the user had not cancelled. */
  ghost predicate Polled(s: Local) {
    s.handle.Some? ==>
      s.trace != [] && s.trace[|s.trace| - 1] == Waited(Poll) && s.turn.status != Stopped
  }

  /** Ask the store whether the user has cancelled; without a durable turn nobody can. */
  method TurnCancelled(w: World, s: Local) returns (after: Local, cancelled: bool, signal: Signal)
    requires Running(w, s)
    ensures after == s.(trace := after.trace, turn := after.turn) && Keeps(w, s, after, signal)
    ensures cancelled <==> signal.Normal? && s.handle.Some? && after.turn.status == Stopped
    ensures signal.Normal? && !cancelled ==> Polled(after)
    ensures Events(after.trace) == Events(s.trace)
  {
    RunningContinues(w, s);
    Counted(w, s.trace, Waited(Poll));
    assert Raises(w, |s.trace|, Waited(Poll)) == w.wake(|s.trace|);
    hide Good, Tracked, Fresh, Running, Ended, Attempted, NoTerminal, Clean, Calm, Events, ChunkText, Next, Raises;
    hide Masked, Unraised, OnlySettling, Stored, Admits, Later;
    after, cancelled, signal := s, false, Normal;
    CleanBefore(w, s.trace, s.trace);
    if s.handle.Some? {
      after, signal := Pause(w, s, Poll);
      Proceeds(w, s, Waited(Poll), after);
      cancelled := signal.Normal? && after.turn.status == Stopped;
    }
  }

  /** The user cancelled: store the partial answer as stopped and say so. */
  method Stop(w: World, s: Local) returns (after: Local, signal: Signal)
    requires Running(w, s) && s.handle.Some? && s.turn.status == Stopped
    ensures Ended(w, after, signal) && after.handle == s.handle
    ensures after.partial == s.partial && s.trace <= after.trace
    ensures Clean(w, after.trace) ==> signal.Normal? && EndsSaying(after.trace, ResponseStopped(s.partial))
  {
    hide Good, Tracked, Running, Ended, Attempted, NoTerminal, Clean, ChunkText, Next, Raises, Unraised, Follows;
    hide OnlySettling, Stored, Admits, Later, Masked, Escapes, Broken, Agrees, AllAgree, Emissions;
    hide IsTerminal, IsFallback;
    RunningContinues(w, s);
    StopTerminates(s.partial);
    after, signal := Interrupt(w, s, Stopped);
    StopStored(w, s, after);
    if signal.Raised? {
      InterruptedEnds(w, after, signal);
      return;
    }
    after := Finalized(w, after);
    ghost var before := after.trace;
    StopIsTold(w, after);
    after, signal := Conclude(w, after, ResponseStopped(s.partial));
    CleanBefore(w, before, after.trace);
  }

  lemma StopTerminates(text: string)
    ensures IsTerminal(Emitted(0, ResponseStopped(text))) && !IsFallback(Emitted(0, ResponseStopped(text)))
  {
  }

  lemma StopStored(w: World, s: Local, after: Local)
    requires Fresh(w, s) && Masked(w, s.trace) && Later(s.turn, after.turn) && s.turn.status == Stopped
    requires after.trace == s.trace + [Finish(Stopped, s.partial)]
    ensures var r := Raises(w, |s.trace|, Finish(Stopped, s.partial));
            && Escapes(w, after.trace, r) && (r.Raised? ==> !Clean(w, after.trace) && Broken(w, after.trace))
            && (r.Normal? ==> Masked(w, after.trace) && Unraised(w, after.trace))
    ensures NoTerminal(after.trace) && after.turn.status == Stopped
  {
    RaisedHere(w, s.trace, Finish(Stopped, s.partial));
    Counted(w, s.trace, Finish(Stopped, s.partial));
    hide Raises, Escapes, Masked, Unraised, Clean, NoTerminal, Attempted, Emissions, ChunkText, Next, Stored, Events;
  }

  lemma StopIsTold(w: World, s: Local)
    requires Good(w, s) && Unraised(w, s.trace) && s.handle.Some? && s.turn.status == Stopped
    ensures Follows(w, s.trace, Emitted(s.sequence + 1, ResponseStopped(s.partial)))
    ensures Agrees(s, Emitted(0, ResponseStopped(s.partial)))
  {
    UnraisedIsMasked(w, s.trace);
    hide Unraised, Masked, Admits, ChunkText, Emissions, Stored;
  }

  /** Save the partial answer; the store ignores it once the turn has ended. */
  method UpdateContent(w: World, s: Local) returns (after: Local, signal: Signal)
    requires Running(w, s) && s.handle.Some?
    ensures after == s.(trace := s.trace + [Update(s.partial)], turn := after.turn)
    ensures Keeps(w, s, after, signal) && Events(after.trace) == Events(s.trace)
  {
    var x := Update(s.partial);
    RunningContinues(w, s);
    assert Follows(w, s.trace, x);
    Counted(w, s.trace, x);
    SignalOfUpdate(w, |s.trace|, s.partial);
    hide Good, Tracked, Fresh, Running, Ended, Attempted, NoTerminal, Clean, Calm, Events, ChunkText, Next, Raises;
    hide Masked, Unraised, OnlySettling, Stored, Admits, Later, Follows, Emissions;
    var reply := w.store(|s.trace|);
    after := Advanced(w, s, x).(sequence := s.sequence);
    signal := if reply.StoreRaises? then Raised(reply.exc) else Normal;
    SameSequence(w, s, x);
    Proceeds(w, s, x, after);
  }

  lemma SignalOfUpdate(w: World, n: nat, content: string)
    ensures Raises(w, n, Update(content)) == if w.store(n).StoreRaises? then Raised(w.store(n).exc) else Normal
  {
  }

  lemma SameSequence(w: World, s: Local, x: Item)
    requires Tracked(w, s) && Follows(w, s.trace, x) && s.partial == ChunkText(s.trace) + ChunkOf(x) && x.Update?
    ensures Advanced(w, s, x).sequence == s.sequence
  {
    hide Good, Tracked, Attempted, ChunkText, Follows, Later, Next;
  }

  method Sleep(w: World, s: Local) returns (after: Local, signal: Signal)
    requires Running(w, s)
    ensures Keeps(w, s, after, signal) && after.partial == s.partial && Events(after.trace) == Events(s.trace)
  {
    RunningContinues(w, s);
    Counted(w, s.trace, Waited(Delay));
    assert Raises(w, |s.trace|, Waited(Delay)) == w.wake(|s.trace|);
    hide Good, Tracked, Fresh, Running, Ended, Attempted, NoTerminal, Clean, Calm, Events, ChunkText, Next, Raises;
    hide Masked, Unraised, OnlySettling, Stored, Admits, Later;
    after, signal := Pause(w, s, Delay);
    Proceeds(w, s, Waited(Delay), after);
  }

  /** Emit one chunk, save the text so far when it is time to, and pause if so configured. */
  method SendChunk(w: World, s: Local, part: string, flush: bool) returns (after: Local, signal: Signal)
    requires Running(w, s) && Polled(s) && w.execution.Executed? && Script(w) <= Events(s.trace)
    requires s.partial + part <= StripStart(w.execution.answer)
    ensures Keeps(w, s, after, signal) && after.partial == s.partial + part && Events(s.trace) <= Events(after.trace)
  {
    hide Running, Ended, Good, Tracked, Fresh, Attempted, NoTerminal, Clean, Calm, ChunkText, Events, Fits, Script;
    hide Masked, Unraised, OnlySettling, Stored, Admits, Next, StripStart, Polled, Broken;
    var longer := s.(partial := s.partial + part);
    ChunkFits(w, s, part);
    after, signal := Continue(w, longer, Chunk(part));
    if signal.Normal? && after.handle.Some? && flush {
      after, signal := UpdateContent(w, after);
    }
    if signal.Normal? && w.delays {
      after, signal := Sleep(w, after);
    }
  }

  lemma ChunkFits(w: World, s: Local, part: string)
    requires Running(w, s) && Polled(s) && w.execution.Executed? && Script(w) <= Events(s.trace)
    requires s.partial + part <= StripStart(w.execution.answer)
    ensures Fits(w, s.trace, Chunk(part))
    ensures var longer := s.(partial := s.partial + part);
            && Tracked(w, longer) && Fresh(w, longer)
            && longer.partial == ChunkText(longer.trace) + ChunkOf(Emitted(0, Chunk(part)))
  {
    hide Sane, Events, Script, ChunkText, Stored, StripStart, Attempted, Emissions, NoTerminal, Unraised;
  }

  lemma {:induction false} ConcatPrefix(parts: seq<string>, i: nat)
    requires i <= |parts|
    ensures Concat(parts[..i]) <= Concat(parts)
  {
    if i == |parts| {
      assert parts[..i] == parts;
    } else {
      ConcatPrefix(parts[..|parts| - 1], i);
      assert Concat(parts) == Concat(parts[..|parts| - 1]) + parts[|parts| - 1];
      assert parts[..|parts| - 1][..i] == parts[..i];
    }
  }

  /** Stream the answer chunk by chunk, looking for the user's cancel before each chunk and after the last. */
  method Deliver(w: World, s: Local, answer: string) returns (after: Local, signal: Signal, stopped: bool)
    requires Running(w, s) && s.partial == "" && IsAnswer(w, answer) && Script(w) <= Events(s.trace)
    ensures after.handle == s.handle && s.trace <= after.trace
    ensures if signal.Normal? && !stopped then Running(w, after) && after.partial == StripStart(answer)
            else Ended(w, after, signal)
    ensures answer != "" && w.chunkSize <= 0 ==> signal == Raised(OrdinaryError)
    ensures Clean(w, after.trace) && (answer == "" || 1 <= w.chunkSize) ==>
              signal.Normal? && (stopped ==> EndsSaying(after.trace, ResponseStopped(after.partial)))
    ensures Calm(w, after.trace) && (answer == "" || 1 <= w.chunkSize) ==>
              (stopped <==> StoppedNow(s))
              && if stopped then EndsSaying(after.trace, ResponseStopped("")) else !StoppedNow(after)
  {
    hide Running, Ended, Concat, StripStart, Clean, Calm, EndsSaying, Events, Script, Polled, Broken;
    hide Good, Tracked, Fresh, Masked, Unraised, OnlySettling, Stored, Admits, NoTerminal, Attempted, ChunkText;
    after, signal, stopped := s, Normal, false;
    CleanBefore(w, s.trace, s.trace);
    var chunks := AnswerChunks.SplitForStream(answer, w.chunkSize);
    if chunks.None? {
      signal := Raised(OrdinaryError);
      RunningContinues(w, after);
      assert Broken(w, after.trace) by { NoChunksIsBroken(w, after.trace); }
      NothingEscapes(w, after.trace, signal);
      InterruptedEnds(w, after, signal);
      return;
    }
    var parts := chunks.value;
    var lastFlushed := 0;
    assert parts[..0] == [];
    ConcatOneMore(parts, "");
    for i := 0 to |parts|
      invariant Keeps(w, s, after, signal) && signal.Normal? && !stopped
      invariant after.partial == Concat(parts[..i]) && lastFlushed <= |after.partial|
      invariant Script(w) <= Events(after.trace)
      invariant Calm(w, after.trace) && StoppedNow(s) ==> after.partial == ""
    {
      var cancelled;
      after, cancelled, signal := TurnCancelled(w, after);
      if signal.Raised? {
        return;
      }
      if cancelled {
        ghost var polled := after.trace;
        stopped := true;
        after, signal := Stop(w, after);
        CleanBefore(w, polled, after.trace);
        return;
      }
      assert parts[..i + 1] == parts[..i] + [parts[i]];
      ConcatOneMore(parts[..i], parts[i]);
      ConcatPrefix(parts, i + 1);
      var flush := |after.partial| + |parts[i]| - lastFlushed >= 480 || i + 1 == |parts|;
      after, signal := SendChunk(w, after, parts[i], flush);
      if signal.Raised? {
        return;
      }
      if after.handle.Some? && flush {
        lastFlushed := |after.partial|;
      }
    }
    assert parts[..|parts|] == parts;
    var cancelled;
    after, cancelled, signal := TurnCancelled(w, after);
    if signal.Raised? {
      return;
    }
    if cancelled {
      ghost var polled := after.trace;
      stopped := true;
      after, signal := Stop(w, after);
      CleanBefore(w, polled, after.trace);
    }
  }

  lemma NoChunksIsBroken(w: World, trace: seq<Item>)
    requires w.execution.Executed? && w.execution.answer != "" && w.chunkSize <= 0
    ensures Broken(w, trace)
  {
  }

  /** What persisting the answer leaves: nothing but that may have failed. */
  ghost predicate Settled(w: World, s: Local, signal: Signal) {
    && Good(w, s) && NoTerminal(s.trace) && !s.finalized
    && OnlySettling(w, s.trace) && Escapes(w, s.trace, signal)
    && (signal.Normal? ==> Unraised(w, s.trace)) && (signal.Raised? <==> !Clean(w, s.trace))
  }

  /** The event that tells what became of the turn. */
  function Chosen(s: Local, answer: string): Event {
    if s.turnStatus == Some(Stopped) then ResponseStopped(s.partial) else ResponseComplete(answer)
  }

  lemma RunningSettles(w: World, s: Local)
    requires Running(w, s)
    ensures w.snapshot.Raised? || s.handle.None? ==> Settled(w, s, w.snapshot)
    ensures NoTerminal(s.trace) && !s.finalized && s.turnStatus.None?
  {
    NothingEscapes(w, s.trace, w.snapshot);
    UnraisedIsMasked(w, s.trace);
    MaskedSettles(w, s.trace);
    UnraisedIsClean(w, s.trace);
    hide Raises, Good, NoTerminal, Escapes, OnlySettling, Unraised, Clean;
  }

  lemma UnraisedIsClean(w: World, trace: seq<Item>)
    requires Unraised(w, trace) && !Attempted(trace)
    ensures Clean(w, trace) <==> w.snapshot.Normal?
  {
    hide Raises;
  }

  /** Complete the turn in the store; a missing turn is an error. */
  method CompleteTurn(w: World, s: Local, answer: string) returns (after: Local, signal: Signal)
    requires Running(w, s) && IsAnswer(w, answer) && s.partial == StripStart(answer) && s.handle.Some?
    requires w.snapshot.Normal?
    ensures after == s.(trace := after.trace, turn := after.turn, turnStatus := after.turnStatus)
    ensures s.trace <= after.trace && Settled(w, after, signal) && Attempted(after.trace)
    ensures signal.Normal? ==> Agrees(after, Emitted(0, Chosen(after, answer)))
    ensures Calm(w, after.trace) ==> (after.turnStatus == Some(Stopped) <==> StoppedNow(s))
  {
    hide Good, Tracked, Fresh, Running, Settled, Attempted, Clean, Calm, ChunkText, Next, StripStart, Follows, Later;
    hide NoTerminal, Masked, Unraised, OnlySettling, Stored, Admits, Escapes, Raises, Emissions, Agrees;
    RunningContinues(w, s);
    CompletionFollows(w, s, answer);
    var final;
    after, final, signal := FinishTurn(w, s, Complete, answer);
    ghost var finished := after;
    after := after.(turnStatus := final);
    if final.None? && signal.Normal? {
      signal := Raised(OrdinaryError);
    }
    CompletionSettles(w, s, finished, after, answer);
    if final.Some? {
      CompletionAgrees(w, s, after, answer);
    }
  }

  lemma CompletionFollows(w: World, s: Local, answer: string)
    requires Running(w, s) && IsAnswer(w, answer) && s.partial == StripStart(answer)
    ensures Follows(w, s.trace, Finish(Complete, answer))
  {
    UnraisedIsMasked(w, s.trace);
    hide ChunkText, StripStart, Unraised, Admits, Masked, Sane, Stored, Emissions;
  }

  lemma CompletionAgrees(w: World, s: Local, after: Local, answer: string)
    requires Running(w, s) && s.handle.Some? && after.handle == s.handle
    requires after.turnStatus == Some(after.turn.status)
    requires after.turn.status ==
             if s.turn.status == Stopped || (IsOpen(s.turn.status) && w.cancels(|s.trace|)) then Stopped
             else if IsOpen(s.turn.status) then Complete
             else s.turn.status
    requires after.turn.status == Complete && IsOpen(s.turn.status) ==> after.turn.content == answer
    ensures Agrees(after, Emitted(0, Chosen(after, answer)))
  {
    RunningContinues(w, s);
    TurnEvolves(w, s);
    hide Running, Good, Tracked, Fresh, Attempted;
  }

  lemma CompletionSettles(w: World, s: Local, finished: Local, after: Local, answer: string)
    requires Fresh(w, s) && w.snapshot.Normal? && Good(w, finished)
    requires after == finished.(turnStatus := after.turnStatus)
    requires finished.trace == s.trace + [Finish(Complete, answer)] && !finished.finalized
    ensures Settled(w, after, Raises(w, |s.trace|, Finish(Complete, answer)))
    ensures var reply := w.store(|s.trace|);
            Raises(w, |s.trace|, Finish(Complete, answer)) ==
            if reply.StoreRaises? then Raised(reply.exc) else if reply.Done? then Normal else Raised(OrdinaryError)
    ensures Calm(w, after.trace) ==> w.store(|s.trace|).Done? && !w.cancels(|s.trace|)
  {
    var x := Finish(Complete, answer);
    UnraisedIsMasked(w, s.trace);
    UnraisedIsClean(w, s.trace);
    RaisedHere(w, s.trace, x);
    Counted(w, s.trace, x);
    assert Good(w, after);
    assert OnlySettling(w, after.trace) by { SettlingMore(w, s.trace, x); }
    hide Good, NoTerminal, Masked, Unraised, OnlySettling, Escapes, Attempted, Emissions, ChunkText, Events, Stored;
  }

  lemma SettlingMore(w: World, trace: seq<Item>, x: Item)
    requires OnlySettling(w, trace) && Settling(x)
    ensures OnlySettling(w, trace + [x])
  {
    hide Raises, Settling;
  }

  /** Some bookkeeping; its failure replaces an earlier one. */
  method Record(w: World, s: Local, earlier: Signal) returns (after: Local, signal: Signal)
    requires Settled(w, s, earlier)
    ensures Settled(w, after, signal) && (signal.Normal? ==> earlier.Normal?)
    ensures after == s.(trace := s.trace + [Waited(Bookkeeping)], turn := after.turn)
    ensures Later(s.turn, after.turn) && (Attempted(after.trace) <==> Attempted(s.trace))
  {
    assert Good(w, s) && Admits(w, s.trace, Waited(Bookkeeping)) by { BookkeepingFollows(w, s, earlier); }
    hide Settled, Good, Attempted, Admits, Next, Later, Chosen;
    var recorded;
    after, recorded := Pause(w, s, Bookkeeping);
    signal := if recorded.Raised? then recorded else earlier;
    BooksSettle(w, s, earlier, after);
  }

  lemma BooksSettle(w: World, s: Local, earlier: Signal, after: Local)
    requires Settled(w, s, earlier) && Good(w, after)
    requires after == s.(trace := s.trace + [Waited(Bookkeeping)], turn := after.turn)
    ensures var recorded := w.wake(|s.trace|); Settled(w, after, if recorded.Raised? then recorded else earlier)
  {
    var x := Waited(Bookkeeping);
    hide Good, Masked, Attempted, Next, Emissions, ChunkText, Events, Stored;
    BookkeepingRaises(w, s.trace, earlier);
    Counted(w, s.trace, x);
    hide OnlySettling, Escapes, Clean, NoTerminal;
    assert Smooth(w, |s.trace|, x) <==> w.wake(|s.trace|).Normal?;
    if earlier.Normal? && w.wake(|s.trace|).Normal? {
      UnraisedMore(w, s.trace, x);
    }
    hide Unraised, Smooth;
  }

  lemma UnraisedMore(w: World, trace: seq<Item>, x: Item)
    requires Unraised(w, trace) && Raises(w, |trace|, x).Normal?
    ensures Unraised(w, trace + [x])
  {
    hide Raises;
  }

  lemma BookkeepingFollows(w: World, s: Local, earlier: Signal)
    requires Settled(w, s, earlier)
    ensures Good(w, s) && Admits(w, s.trace, Waited(Bookkeeping))
  {
    hide Raises, Good, NoTerminal, Escapes, Clean, Unraised;
  }

  /** Take the snapshot of the sources, complete the turn in the store, then do the bookkeeping; recording the run comes
      last in any case. */
  method Persist(w: World, s: Local, answer: string) returns (after: Local, signal: Signal)
    requires Running(w, s) && IsAnswer(w, answer) && s.partial == StripStart(answer)
    ensures Settled(w, after, signal)
    ensures after.handle == s.handle && after.partial == s.partial && s.trace <= after.trace
    ensures signal.Normal? && s.handle.Some? ==> Attempted(after.trace)
    ensures signal.Normal? ==> Agrees(after, Emitted(0, Chosen(after, answer)))
    ensures Calm(w, after.trace) ==> (after.turnStatus == Some(Stopped) <==> StoppedNow(s))
  {
    RunningSettles(w, s);
    assert s.handle.None? ==> Agrees(s, Emitted(0, Chosen(s, answer)));
    hide Good, Running, Settled, Attempted, Clean, Calm, StripStart, Agrees, Later, NoTerminal;
    after, signal := s, w.snapshot;
    if signal.Normal? && s.handle.Some? {
      after, signal := CompleteTurn(w, s, answer);
    }
    ghost var completed := after;
    ghost var settled := signal;
    after, signal := KeepBooks(w, after, signal);
    if settled.Normal? {
      StillAgrees(completed, after, Emitted(0, Chosen(completed, answer)));
    }
    CleanBefore(w, completed.trace, after.trace);
    SnapshotIsCalm(w, after.trace);
  }

  /** After a completion the workflow's state is checkpointed; the run is recorded in any case. */
  method KeepBooks(w: World, s: Local, earlier: Signal) returns (after: Local, signal: Signal)
    requires Settled(w, s, earlier)
    ensures Settled(w, after, signal) && (signal.Normal? ==> earlier.Normal?)
    ensures after == s.(trace := after.trace, turn := after.turn) && s.trace <= after.trace
    ensures Later(s.turn, after.turn) && (Attempted(after.trace) <==> Attempted(s.trace))
  {
    assert forall a, b, c :: Later(a, b) && Later(b, c) ==> Later(a, c);
    hide Settled, Attempted, Later;
    after, signal := s, earlier;
    if signal.Normal? && (after.turnStatus.None? || after.turnStatus.value == Complete) {
      ghost var before := after.turn;
      after, signal := Record(w, after, signal);
    }
    after, signal := Record(w, after, signal);
  }

  lemma SnapshotIsCalm(w: World, trace: seq<Item>)
    ensures Calm(w, trace) ==> w.snapshot.Normal?
  {
  }

  /** Persist the answer and report what became of the turn. */
  method Settle(w: World, s: Local, answer: string) returns (after: Local, signal: Signal)
    requires Running(w, s) && IsAnswer(w, answer) && s.partial == StripStart(answer)
    ensures Ended(w, after, signal) && after.handle == s.handle && s.trace <= after.trace
    ensures Clean(w, after.trace) ==>
              signal.Normal? && (EndsSaying(after.trace, ResponseStopped(after.partial))
                                 || EndsSaying(after.trace, ResponseComplete(answer)))
    ensures Calm(w, after.trace) && !StoppedNow(s) ==> EndsSaying(after.trace, ResponseComplete(answer))
  {
    hide Good, Running, Settled, Attempted, Clean, Calm, StripStart, Agrees, Ended, EndsSaying, NoTerminal, Follows;
    hide Masked, Escapes, OnlySettling, Unraised, Broken;
    after, signal := Persist(w, s, answer);
    ghost var persisted := after.trace;
    SettledContinues(w, after, signal);
    if signal.Raised? {
      if signal.exc == OrdinaryError {
        after, signal := Fail(w, after, PersistenceFailed);
      } else {
        InterruptedEnds(w, after, signal);
      }
      CleanBefore(w, persisted, after.trace);
      return;
    }
    after := Finalized(w, after);
    ChosenFollows(w, after, answer);
    after, signal := Conclude(w, after, Chosen(after, answer));
    CleanBefore(w, persisted, after.trace);
  }

  lemma SettledContinues(w: World, s: Local, signal: Signal)
    requires Settled(w, s, signal)
    ensures Good(w, s) && NoTerminal(s.trace) && !s.finalized
    ensures signal.Raised? ==> !Clean(w, s.trace) && Broken(w, s.trace) && Escapes(w, s.trace, signal)
    ensures signal == Raised(OrdinaryError) ==> Masked(w, s.trace) && Justified(w, s.trace, PersistenceFailed)
    ensures signal.Normal? ==> Unraised(w, s.trace) && Masked(w, s.trace)
  {
    hide Good, NoTerminal, OnlySettling, Escapes, Unraised, Clean, Masked;
    if signal == Raised(OrdinaryError) {
      OrdinaryMasks(w, s.trace);
    }
    if signal.Normal? {
      UnraisedIsMasked(w, s.trace);
    }
  }

  lemma ChosenFollows(w: World, s: Local, answer: string)
    requires Good(w, s) && Unraised(w, s.trace) && IsAnswer(w, answer) && s.partial == StripStart(answer)
    ensures Follows(w, s.trace, Emitted(s.sequence + 1, Chosen(s, answer)))
    ensures IsTerminal(Emitted(0, Chosen(s, answer))) && !IsFallback(Emitted(0, Chosen(s, answer)))
  {
    UnraisedIsMasked(w, s.trace);
    hide Unraised, Masked, Admits, ChunkText, Emissions, Stored, StripStart, Sane, Attempted;
  }

  /** The body of the stream, up to its first exception or its return. */
  method Body(w: World) returns (s: Local, signal: Signal)
    ensures Ended(w, s, signal)
    ensures w.begin.Conflict? ==> s.trace == [Emitted(1, Error(RefusalCode(w)))]
    ensures w.begin.BeginRaises? ==> s.trace == [] && signal == Raised(w.begin.exc)
    ensures Clean(w, s.trace) && Runs(w) ==>
              signal.Normal? && (EndsSaying(s.trace, ResponseStopped(s.partial))
                                 || EndsSaying(s.trace, ResponseComplete(w.execution.answer)))
    ensures Calm(w, s.trace) && Runs(w) ==>
              EndsSaying(s.trace, if s.handle == Some(Stopped) then ResponseStopped("")
                                  else ResponseComplete(w.execution.answer))
    // the client is shown the preamble before anything of the answer
    ensures signal.Normal? && Starts(w) ==> Script(w) <= Events(s.trace)
    // what goes wrong without a suspension raising anything
    ensures Clean(w, s.trace) && Starts(w) && Unchunkable(w) ==> signal == Raised(OrdinaryError)
    ensures Clean(w, s.trace) && Starts(w) && w.execution.ExecutionRaises? ==>
              if w.execution.exc == OrdinaryError
              then signal.Normal? && EndsSaying(s.trace, Error(ExecutionFailed)) && EndsFailed(w, s.trace)
              else signal == Raised(w.execution.exc)
  {
    hide Good, NoTerminal, Attempted, Concluded, AllAgree, StripStart, Clean, Calm, Ended, Running, Script, Events;
    hide EndsSaying, Broken;
    if w.begin.Conflict? {
      s, signal := Refuse(w);
      return;
    }
    s, signal := Begin(w);
    CleanBefore(w, s.trace, s.trace);
    if signal.Raised? {
      return;
    }
    ghost var begun := s.trace;
    if w.execution.ExecutionRaises? {
      ghost var before := s;
      s, signal := Execute(w, s);
      WorkflowFails(w, before, s, signal);
      return;
    }
    s, signal := Perform(w, s);
    CleanBefore(w, begun, s.trace);
  }

  /** What is shown when the workflow fails. */
  ghost predicate EndsFailed(w: World, trace: seq<Item>) {
    w.begin.Begun? ==>
      var n := |trace| - 2;
      0 <= n && trace[n].Finish? && trace[n].status == Failed && !Attempted(trace[..n]) && !trace[n + 1].Finish?
  }

  lemma WorkflowFails(w: World, before: Local, s: Local, signal: Signal)
    requires Running(w, before) && Starts(w) && w.execution.ExecutionRaises? && before.trace <= s.trace
    requires Events(before.trace) == ACKNOWLEDGED && s.handle == before.handle
    requires w.execution == ExecutionRaises(OrdinaryError) && Clean(w, s.trace) ==>
               Reported(before, Error(ExecutionFailed), s.trace, signal)
    ensures Script(w) <= Events(s.trace)
    ensures w.execution == ExecutionRaises(OrdinaryError) && Clean(w, s.trace) ==> EndsFailed(w, s.trace)
  {
    RunningContinues(w, before);
    EventsGrow(w, before.trace, s.trace);
    hide Running, Good, Tracked, Fresh, Attempted, Events, Clean, Unraised, Masked, OnlySettling, Admits, Stored;
    if w.execution == ExecutionRaises(OrdinaryError) && Clean(w, s.trace) && w.begin.Begun? {
      var n := |s.trace| - 2;
      assert s.trace[..n + 1] == before.trace + [Finish(Failed, before.partial)];
      assert s.trace[..n] == s.trace[..n + 1][..n] == before.trace;
      assert s.trace[n] == s.trace[..n + 1][n];
    }
  }

  /** From the acknowledgement to the final event, when the workflow answers. */
  method Perform(w: World, begun: Local) returns (s: Local, signal: Signal)
    requires Running(w, begun) && begun.partial == "" && Events(begun.trace) == ACKNOWLEDGED && w.execution.Executed?
    requires !w.begin.BeginRaises? && !w.begin.Conflict?
    ensures Ended(w, s, signal) && s.handle == begun.handle && begun.trace <= s.trace
    ensures Clean(w, s.trace) && Runs(w) ==>
              signal.Normal? && (EndsSaying(s.trace, ResponseStopped(s.partial))
                                 || EndsSaying(s.trace, ResponseComplete(w.execution.answer)))
    ensures Calm(w, s.trace) && Runs(w) ==>
              EndsSaying(s.trace, if StoppedNow(begun) then ResponseStopped("")
                                  else ResponseComplete(w.execution.answer))
    ensures signal.Normal? ==> Script(w) <= Events(s.trace)
    ensures Clean(w, s.trace) && Unchunkable(w) ==> signal == Raised(OrdinaryError)
  {
    hide Good, NoTerminal, Attempted, Concluded, AllAgree, StripStart, Clean, Calm, Ended, Running, Script, Events;
    hide EndsSaying;
    s, signal := Announce(w, begun, w.execution.phases, w.execution.asksUser);
    if signal.Raised? {
      return;
    }
    ghost var announced := s.trace;
    var stopped;
    s, signal, stopped := Deliver(w, s, w.execution.answer);
    CleanBefore(w, announced, s.trace);
    EventsGrow(w, announced, s.trace);
    if signal.Raised? || stopped {
      return;
    }
    ghost var delivered := s.trace;
    s, signal := Settle(w, s, w.execution.answer);
    CleanBefore(w, delivered, s.trace);
    CleanBefore(w, announced, s.trace);
    EventsGrow(w, announced, s.trace);
  }

  // ---- the whole stream ----

  ghost predicate SaysItEnded(trace: seq<Item>) {
    exists i :: 0 <= i < |trace| && IsTerminal(trace[i])
  }

  /** Nothing more will be emitted. */
  ghost predicate Over(w: World, s: Local, signal: Signal) {
    && Good(w, s) && AllAgree(s) && EndsOnce(w, s.trace) && Unswallowed(w, s.trace, signal)
    && (signal.Normal? ==> SaysItEnded(s.trace)) && (signal.Raised? ==> Broken(w, s.trace))
  }

  /** What the body leaves ends once, unless an ordinary exception is still to be handled. */
  lemma BodyEndsOnce(w: World, s: Local, signal: Signal)
    requires Ended(w, s, signal) && signal != Raised(OrdinaryError)
    ensures Over(w, s, signal)
  {
    hide Good, AllAgree, IsTerminal, Escapes, Unswallowed, Broken, EndsOnce, SaysItEnded, NoTerminal, Concluded;
    EscapesUnswallowed(w, s.trace, signal);
    if Concluded(w, s.trace, signal) {
      ConcludedEndsOnce(w, s.trace, signal);
    } else {
      NoTerminalEndsOnce(w, s.trace);
    }
  }

  lemma ConcludedEndsOnce(w: World, trace: seq<Item>, signal: Signal)
    requires Concluded(w, trace, signal) && signal != Raised(OrdinaryError)
    ensures EndsOnce(w, trace) && SaysItEnded(trace)
  {
    hide IsTerminal;
    var n := |trace| - 1;
    assert forall i :: 0 <= i < n ==> trace[i] == trace[..n][i];
  }

  lemma EscapesUnswallowed(w: World, trace: seq<Item>, signal: Signal)
    requires Escapes(w, trace, signal)
    ensures Unswallowed(w, trace, signal)
  {
    hide Raises, Settling, Overridden;
    forall i | 0 <= i < |trace| && Raises(w, i, trace[i]).Raised? && Raises(w, i, trace[i]).exc != OrdinaryError
      ensures signal.Raised? || Overridden(w, trace, i)
    {
      assert Escape(w, trace, signal, i);
    }
  }

  /** One more item on the way out. */
  lemma UnswallowedMore(w: World, trace: seq<Item>, signal: Signal, x: Item, later: Signal)
    requires Unswallowed(w, trace, signal) && (signal.Raised? ==> later.Raised?)
    requires Raises(w, |trace|, x).Raised? && Raises(w, |trace|, x).exc != OrdinaryError ==> later.Raised?
    ensures Unswallowed(w, trace + [x], later)
  {
    hide Raises, Overridden;
    var longer := trace + [x];
    forall i | 0 <= i < |longer| && Raises(w, i, longer[i]).Raised? && Raises(w, i, longer[i]).exc != OrdinaryError
      ensures later.Raised? || Overridden(w, longer, i)
    {
      if i < |trace| {
        assert longer[i] == trace[i];
        if Overridden(w, trace, i) {
          OverriddenLater(w, trace, x, i);
        }
      }
    }
  }

  lemma FallbackEndsOnce(w: World, trace: seq<Item>, x: Item)
    requires NoTerminal(trace) || Concluded(w, trace, Raised(OrdinaryError))
    requires IsFallback(x)
    ensures EndsOnce(w, trace + [x]) && SaysItEnded(trace + [x])
  {
    var after := trace + [x];
    assert forall i :: 0 <= i < |trace| ==> after[i] == trace[i];
    assert after[|trace|] == x;
    if Concluded(w, trace, Raised(OrdinaryError)) {
      var n := |trace| - 1;
      assert forall i :: 0 <= i < n ==> after[i] == trace[..n][i] && !IsTerminal(after[i]);
    }
  }

  lemma FinishEndsOnce(w: World, trace: seq<Item>, x: Item)
    requires EndsOnce(w, trace) && x.Finish?
    ensures EndsOnce(w, trace + [x])
    ensures SaysItEnded(trace) ==> SaysItEnded(trace + [x])
  {
    var longer := trace + [x];
    hide IsFallback;
    assert forall i :: 0 <= i < |trace| ==> longer[i] == trace[i];
    assert !IsTerminal(longer[|trace|]);
    hide IsTerminal;
    if SaysItEnded(trace) {
      var i :| 0 <= i < |trace| && IsTerminal(trace[i]);
      assert IsTerminal(longer[i]);
    }
  }

  lemma AgreesLater(s: Local, after: Local)
    requires AllAgree(s) && Later(s.turn, after.turn) && after.handle == s.handle && s.trace <= after.trace
    requires forall i :: |s.trace| <= i < |after.trace| && IsTerminal(after.trace[i]) ==> IsFallback(after.trace[i])
    ensures AllAgree(after)
  {
    forall i | 0 <= i < |after.trace|
      ensures Agrees(after, after.trace[i])
    {
      if i < |s.trace| {
        assert after.trace[i] == s.trace[i];
        StillAgrees(s, after, s.trace[i]);
      }
    }
  }

  /** finish_turn once more, on the way out. */
  method InterruptOnExit(w: World, s: Local, status: TurnStatus) returns (after: Local, signal: Signal)
    requires Good(w, s) && AllAgree(s) && s.handle.Some? && status in {Stopped, Failed} && Broken(w, s.trace)
    ensures Good(w, after) && AllAgree(after) && Attempted(after.trace)
    ensures after.trace == s.trace + [Finish(status, s.partial)]
    ensures signal == Raises(w, |s.trace|, Finish(status, s.partial))
    ensures after.handle == s.handle && after.finalized == s.finalized && after.partial == s.partial
    ensures Broken(w, after.trace) && (Clean(w, after.trace) ==> signal.Normal?)
  {
    hide Good, Attempted, AllAgree, Broken, Clean, Raises, Next, Later;
    after, signal := Interrupt(w, s, status);
    CleanBefore(w, s.trace, after.trace);
    assert Clean(w, after.trace) ==> signal.Normal? by {
      Counted(w, s.trace, Finish(status, s.partial));
    }
    AgreesLater(s, after);
  }

  lemma NoTerminalEndsOnce(w: World, trace: seq<Item>)
    requires NoTerminal(trace)
    ensures EndsOnce(w, trace)
  {
  }

  lemma FinishIsNotTerminal(before: seq<Item>, x: Item)
    requires NoTerminal(before) && x.Finish?
    ensures NoTerminal(before + [x])
  {
  }

  /** The handlers of the outer try statement. */
  method Handle(w: World, s: Local, raised: Signal) returns (after: Local, signal: Signal)
    requires Ended(w, s, raised)
    ensures Over(w, after, signal) && after.handle == s.handle && s.trace <= after.trace
    ensures raised.Normal? ==> signal.Normal? && after == s
    ensures signal.Normal? ==> after.handle.None? || after.finalized
    ensures raised.Raised? && raised.exc != OrdinaryError && Clean(w, after.trace) ==> signal == raised
    ensures raised.Raised? && raised.exc != OrdinaryError && s.handle.None? ==> after == s && signal == raised
    ensures raised == Raised(OrdinaryError) && Clean(w, after.trace) ==>
              signal.Normal? && EndsSaying(after.trace, Error(StreamIncomplete))
  {
    hide Good, Attempted, AllAgree, EndsOnce, SaysItEnded, Unswallowed, Broken, Clean, Ended, Escapes, NoTerminal;
    if raised == Raised(OrdinaryError) {
      after, signal := Report(w, s);
      return;
    }
    BodyEndsOnce(w, s, raised);
    NormalIsFinalized(w, s, raised);
    after, signal := s, raised;
    if raised == Raised(TaskCancelled) && s.handle.Some? && !s.finalized {
      var stopping;
      hide Raises;
      after, stopping := InterruptOnExit(w, s, Stopped);
      FinishEndsOnce(w, s.trace, after.trace[|s.trace|]);
      signal := if stopping.Raised? then stopping else raised;
      UnswallowedMore(w, s.trace, raised, after.trace[|s.trace|], signal);
      if stopping.Normal? {
        after := Finalized(w, after);
      }
    }
  }

  lemma NormalIsFinalized(w: World, s: Local, signal: Signal)
    requires Ended(w, s, signal)
    ensures signal.Normal? ==> s.handle.None? || s.finalized
    ensures signal.Raised? ==> Broken(w, s.trace)
  {
    hide Good, AllAgree, Escapes, Broken;
  }

  /** An ordinary error: end the turn as failed, and tell the client. */
  method Report(w: World, s: Local) returns (after: Local, signal: Signal)
    requires Ended(w, s, Raised(OrdinaryError))
    ensures Over(w, after, signal) && after.handle == s.handle && s.trace <= after.trace
    ensures signal.Normal? ==> after.handle.None? || after.finalized
    ensures Clean(w, after.trace) ==> signal.Normal? && EndsSaying(after.trace, Error(StreamIncomplete))
  {
    hide Good, Attempted, AllAgree, EndsOnce, SaysItEnded, Unswallowed, Broken, Clean, Ended, Escapes, NoTerminal;
    hide Concluded, Raises, Follows, EndsSaying;
    EndedContinues(w, s);
    after, signal := s, Normal;
    if s.handle.Some? && !s.finalized {
      after, signal := InterruptOnExit(w, s, Failed);
      FailedOnExit(w, s.trace, after.trace[|s.trace|]);
      if signal.Raised? {
        EndsOnInterrupt(w, s.trace, after.trace[|s.trace|]);
        return;
      }
      after := Finalized(w, after);
    }
    after, signal := EmitFallback(w, after);
  }

  /** The error for everything unexpected. */
  method EmitFallback(w: World, s: Local) returns (after: Local, signal: Signal)
    requires Good(w, s) && AllAgree(s) && Broken(w, s.trace) && Escapes(w, s.trace, Raised(OrdinaryError))
    requires NoTerminal(s.trace) || Concluded(w, s.trace, Raised(OrdinaryError))
    ensures Over(w, after, signal) && s.trace <= after.trace
    ensures after.handle == s.handle && after.finalized == s.finalized
    ensures Clean(w, after.trace) ==> signal.Normal? && EndsSaying(after.trace, Error(StreamIncomplete))
  {
    hide Good, Attempted, AllAgree, EndsOnce, SaysItEnded, Unswallowed, Broken, Clean, Escapes, NoTerminal, EndsSaying;
    hide Concluded, Follows, Emissions, ChunkText, Tracked, Later, Next, Stored;
    GoodIsTracked(w, s);
    FallbackFollows(w, s.trace, s.sequence + 1);
    after, signal := Emit(w, s, Error(StreamIncomplete));
    var x := Emitted(s.sequence + 1, Error(StreamIncomplete));
    assert after.trace == s.trace + [x];
    FallbackEndsOnce(w, s.trace, x);
    AgreesLater(s, after);
    FallbackIsOver(w, s.trace, x);
  }

  /** What the outer handler finds. */
  lemma EndedContinues(w: World, s: Local)
    requires Ended(w, s, Raised(OrdinaryError))
    ensures Good(w, s) && AllAgree(s) && Broken(w, s.trace) && Escapes(w, s.trace, Raised(OrdinaryError))
    ensures NoTerminal(s.trace) || (Concluded(w, s.trace, Raised(OrdinaryError)) && (s.handle.None? || s.finalized))
  {
    hide Good, AllAgree, Broken, Escapes;
  }

  lemma FailedOnExit(w: World, trace: seq<Item>, x: Item)
    requires Escapes(w, trace, Raised(OrdinaryError)) && NoTerminal(trace) && x.Finish?
    ensures NoTerminal(trace + [x]) && EndsOnce(w, trace + [x])
    ensures Raises(w, |trace|, x).Normal? ==> Escapes(w, trace + [x], Raised(OrdinaryError))
  {
    FinishIsNotTerminal(trace, x);
    NoTerminalEndsOnce(w, trace + [x]);
    hide Raises, Settling, Overridden, NoTerminal, EndsOnce;
    if Raises(w, |trace|, x).Normal? {
      forall i | 0 <= i < |trace + [x]| && Raises(w, i, (trace + [x])[i]).Raised?
        ensures Escape(w, trace + [x], Raised(OrdinaryError), i)
      {
        assert (trace + [x])[i] == trace[i] && Escape(w, trace, Raised(OrdinaryError), i);
        if Overridden(w, trace, i) {
          OverriddenLater(w, trace, x, i);
        }
      }
    }
  }

  lemma EndsOnInterrupt(w: World, trace: seq<Item>, x: Item)
    requires Escapes(w, trace, Raised(OrdinaryError)) && Raises(w, |trace|, x).Raised?
    ensures Unswallowed(w, trace + [x], Raises(w, |trace|, x))
  {
    EscapesUnswallowed(w, trace, Raised(OrdinaryError));
    hide Escapes, Unswallowed, Raises;
    UnswallowedMore(w, trace, Raised(OrdinaryError), x, Raises(w, |trace|, x));
  }

  lemma FallbackIsOver(w: World, trace: seq<Item>, x: Item)
    requires Escapes(w, trace, Raised(OrdinaryError)) && Broken(w, trace) && IsFallback(x)
    ensures Unswallowed(w, trace + [x], w.wake(|trace|)) && Broken(w, trace + [x])
    ensures Clean(w, trace + [x]) ==> w.wake(|trace|).Normal?
    ensures EndsSaying(trace + [x], Error(StreamIncomplete))
  {
    CleanBefore(w, trace, trace + [x]);
    Counted(w, trace, x);
    assert Raises(w, |trace|, x) == w.wake(|trace|);
    AllMasked(w, trace);
    hide Escapes, Unswallowed, Raises, Broken, Clean;
    UnswallowedMore(w, trace, Normal, x, w.wake(|trace|));
  }

  lemma AllMasked(w: World, trace: seq<Item>)
    requires Escapes(w, trace, Raised(OrdinaryError))
    ensures Unswallowed(w, trace, Normal)
  {
    hide Raises, Settling, Overridden;
    forall i | 0 <= i < |trace| && Raises(w, i, trace[i]).Raised? && Raises(w, i, trace[i]).exc != OrdinaryError
      ensures Overridden(w, trace, i)
    {
      assert Escape(w, trace, Raised(OrdinaryError), i);
    }
  }

  /** The finally block: a turn not yet finished is stopped; an ordinary failure to do so is only logged. */
  method Finalize(w: World, s: Local, raised: Signal) returns (after: Local, signal: Signal)
    requires Over(w, s, raised)
    requires raised.Normal? ==> s.handle.None? || s.finalized
    ensures Over(w, after, signal) && after.handle == s.handle && s.trace <= after.trace
    ensures s.handle.Some? ==> Attempted(after.trace)
    ensures s.handle.None? || s.finalized ==> after == s && signal == raised
    ensures Clean(w, after.trace) ==> signal == raised
  {
    assert s.finalized ==> Attempted(s.trace);
    hide Good, Attempted, AllAgree, EndsOnce, SaysItEnded, Unswallowed, Broken, Clean, Raises;
    after, signal := s, raised;
    if s.handle.Some? {
      if !s.finalized {
        var stopping;
        after, stopping := InterruptOnExit(w, s, Stopped);
        FinishEndsOnce(w, s.trace, after.trace[|s.trace|]);
        if stopping.Raised? && stopping.exc != OrdinaryError {
          signal := stopping;
        }
        UnswallowedMore(w, s.trace, raised, after.trace[|s.trace|], signal);
      }
    }
  }

  // ---- the user's cancel ----

  /** Before finish_turn is called, a turn that was open is stopped exactly if the user's cancel landed. */
  lemma {:induction false} StoppedBeforeFinish(w: World, trace: seq<Item>)
    requires IsOpen(Initial(w).status) && !Attempted(trace)
    ensures if Cancelled(w, |trace|) then Stored(w, trace).status == Stopped else IsOpen(Stored(w, trace).status)
  {
    if trace != [] {
      var n := |trace| - 1;
      assert trace == trace[..n] + [trace[n]];
      Counted(w, trace[..n], trace[n]);
      StoppedBeforeFinish(w, trace[..n]);
      CancelledMore(w, n);
      hide Attempted, Cancelled, Stored;
    }
  }

  lemma CancelledMore(w: World, n: nat)
    ensures Cancelled(w, n + 1) <==> Cancelled(w, n) || w.cancels(n)
  {
    if Cancelled(w, n) {
      var i: nat :| i < n && w.cancels(i);
      assert i < n + 1;
    }
  }

  /** No status is left that ends a turn. */
  lemma {:induction false} StaysEnded(w: World, trace: seq<Item>, m: nat)
    requires m <= |trace| && !IsOpen(Stored(w, trace[..m]).status)
    requires forall i :: 0 <= i < |trace| && trace[i].Finish? ==> !IsOpen(trace[i].status)
    ensures Stored(w, trace).status == Stored(w, trace[..m]).status
  {
    if m == |trace| {
      assert trace[..m] == trace;
    } else {
      var n := |trace| - 1;
      assert trace == trace[..n] + [trace[n]] && trace[..n][..m] == trace[..m];
      hide Stored;
      StaysEnded(w, trace[..n], m);
      Counted(w, trace[..n], trace[n]);
      NextLater(w, n, Stored(w, trace[..n]), trace[n]);
    }
  }

  /** The user's cancel wins exactly when it lands no later than the first finish_turn, however the run goes on. */
  lemma CancelWinsExactly(w: World, trace: seq<Item>, f: nat)
    requires IsOpen(Initial(w).status) && f < |trace| && !Attempted(trace[..f])
    requires trace[f].Finish? && w.store(f).Done?
    requires forall i :: 0 <= i < |trace| && trace[i].Finish? ==> !IsOpen(trace[i].status)
    ensures Stored(w, trace).status == if Cancelled(w, f + 1) then Stopped else trace[f].status
  {
    assert trace[..f + 1] == trace[..f] + [trace[f]];
    hide Stored, Cancelled, Attempted, Next;
    Counted(w, trace[..f], trace[f]);
    StoppedBeforeFinish(w, trace[..f]);
    CancelledMore(w, f);
    InForce(w, f, Stored(w, trace[..f]), trace[f].status, trace[f].content);
    StaysEnded(w, trace, f + 1);
  }

  /** The first call of finish_turn. */
  ghost function FirstFinish(trace: seq<Item>): (f: nat)
    requires Attempted(trace)
    ensures f < |trace| && trace[f].Finish? && !Attempted(trace[..f])
  {
    var n := |trace| - 1;
    if Attempted(trace[..n]) then
      var f := FirstFinish(trace[..n]);
      assert trace[..n][..f] == trace[..f];
      f
    else
      assert trace == trace[..n] + [trace[n]];
      n
  }

  /** Without faults, an open turn ends stopped exactly when the cancel landed no later than the first finish_turn. */
  lemma CleanCancelWins(w: World, trace: seq<Item>)
    requires Sane(w, trace) && Clean(w, trace) && Runs(w) && w.begin.Begun? && IsOpen(w.begin.turn.status)
    requires Attempted(trace)
    ensures Stored(w, trace).status == Stopped <==> Cancelled(w, FirstFinish(trace) + 1)
  {
    hide Stored, Cancelled, Attempted, FirstFinish, Sane, Clean, Runs;
    var f := FirstFinish(trace);
    FinishIsTold(w, trace, f);
    EndingStatus(w, trace);
    StoppedBeforeFinish(w, trace[..f]);
    CancelledMore(w, f);
    CancelWinsExactly(w, trace, f);
  }

  lemma FinishIsTold(w: World, trace: seq<Item>, f: nat)
    requires Sane(w, trace) && Clean(w, trace) && Runs(w) && f < |trace| && trace[f].Finish?
    ensures w.store(f).Done?
    ensures trace[f].status == Complete || (trace[f].status == Stopped && Stored(w, trace[..f]).status == Stopped)
  {
    CleanBefore(w, trace[..f], trace);
    assert Says(w, trace[..f], trace[f]) by { assert Follows(w, trace[..f], trace[f]); }
    assert Smooth(w, f, trace[f]);
    hide Sane, Clean, Stored, ChunkText, StripStart, Follows;
  }

  /** finish_turn is told how the turn ends. */
  lemma EndingStatus(w: World, trace: seq<Item>)
    requires Sane(w, trace)
    ensures forall i :: 0 <= i < |trace| && trace[i].Finish? ==> !IsOpen(trace[i].status)
  {
  }
  /** The stream with its handlers: whatever happens, the turn is finished, the client is told at most once, and what it
      is told is what is stored. */
  method Stream(w: World) returns (s: Local, signal: Signal)
    // every item follows from those before it, and the stored turn is what the store made of them and of the cancels
    ensures Sane(w, s.trace) && s.turn == Stored(w, s.trace)
    ensures EndsOnce(w, s.trace) && Unswallowed(w, s.trace, signal)
    ensures AllAgree(s)
    ensures w.begin.Begun? ==> Attempted(s.trace)
    ensures signal.Normal? ==> SaysItEnded(s.trace)
    ensures s.handle == HandleOf(w)
    // a reported completion is stored exactly when the turn had not ended otherwise before it was sent again
    ensures w.begin.Begun? ==>
              forall i :: 0 <= i < |s.trace| && IsCompletion(s.trace[i]) ==>
                (s.turn.status == Complete <==> w.begin.turn.status !in {Failed, Superseded})
    // if nothing is raised, and whenever the user cancels, the stream ends by saying what is stored, after the preamble
    ensures Clean(w, s.trace) && Runs(w) ==>
              && signal.Normal? && Script(w) <= Events(s.trace)
              && (EndsSaying(s.trace, ResponseStopped(ChunkText(s.trace)))
                  || EndsSaying(s.trace, ResponseComplete(w.execution.answer)))
    ensures Clean(w, s.trace) && Runs(w) && w.begin.Begun? ==>
              && (EndsSaying(s.trace, ResponseStopped(ChunkText(s.trace))) <==> s.turn.status == Stopped)
              // a completion that is not stored is reported exactly when the turn had failed or was superseded before
              && (EndsSaying(s.trace, ResponseComplete(w.execution.answer)) && s.turn.status != Complete <==>
                  w.begin.turn.status in {Failed, Superseded})
    // the cancel of an open turn wins exactly when it lands no later than the first finish_turn
    ensures Clean(w, s.trace) && Runs(w) && w.begin.Begun? && IsOpen(w.begin.turn.status) ==>
              (s.turn.status == Stopped <==> Attempted(s.trace) && Cancelled(w, FirstFinish(s.trace) + 1))
    ensures Calm(w, s.trace) && Runs(w) ==>
              EndsSaying(s.trace, if s.handle == Some(Stopped) then ResponseStopped("")
                                  else ResponseComplete(w.execution.answer))
    // a workflow that fails is reported, and its turn stored as failed unless the user's cancel came first
    ensures Clean(w, s.trace) && Starts(w) && w.execution == ExecutionRaises(OrdinaryError) ==>
              && signal.Normal? && EndsSaying(s.trace, Error(ExecutionFailed))
              && (w.begin.Begun? && IsOpen(w.begin.turn.status) ==>
                    s.turn.status == if Cancelled(w, |s.trace| - 1) then Stopped else Failed)
    ensures Clean(w, s.trace) && Starts(w) && w.execution.ExecutionRaises? && w.execution.exc != OrdinaryError ==>
              signal == Raised(w.execution.exc)
    // so is any other ordinary error
    ensures Clean(w, s.trace) && (w.begin == BeginRaises(OrdinaryError) || (Starts(w) && Unchunkable(w))) ==>
              signal.Normal? && EndsSaying(s.trace, Error(StreamIncomplete))
    ensures Clean(w, s.trace) && w.begin.BeginRaises? && w.begin.exc != OrdinaryError ==>
              signal == Raised(w.begin.exc) && s.trace == []
    // a turn that cannot be begun is refused at once
    ensures w.begin.Conflict? ==> s.trace != [] && s.trace[0] == Emitted(1, Error(RefusalCode(w)))
  {
    hide Attempted, Concluded, EndsOnce, Sane, SaysItEnded, Emissions, ChunkText, Clean, Calm, Script, Events, Stored;
    hide Unswallowed, Escapes, EndsSaying, Broken, EndsFailed, NoTerminal, Agrees, Good, AllAgree, Ended, Runs;
    hide Starts, Cancelled, IsCompletion;
    s, signal := Body(w);
    ghost var body, raised := s, signal;
    NormalIsFinalized(w, s, signal);
    s, signal := Handle(w, s, signal);
    ghost var handled := s.trace;
    s, signal := Finalize(w, s, signal);
    CleanBefore(w, handled, s.trace);
    CleanBefore(w, body.trace, s.trace);
    CleanBefore(w, s.trace, s.trace);
    Concludes(w, s);
    if Clean(w, s.trace) && Runs(w) {
      CleanIsUnbroken(w, s.trace);
      ToldAsStored(w, s);
      assert s.partial == ChunkText(s.trace) by { GoodIsTracked(w, s); }
    }
    if Clean(w, s.trace) && Starts(w) && w.execution == ExecutionRaises(OrdinaryError) && w.begin.Begun? {
      FailedIsStored(w, s.trace);
    }
    assert w.begin.Conflict? ==> body.trace[0] == s.trace[0];
  }

  lemma CleanIsUnbroken(w: World, trace: seq<Item>)
    requires Clean(w, trace) && Runs(w)
    ensures !Broken(w, trace) && Starts(w)
  {
  }

  lemma Concludes(w: World, s: Local)
    requires Good(w, s) && AllAgree(s)
    ensures Sane(w, s.trace) && s.turn == Stored(w, s.trace) && s.handle == HandleOf(w)
    ensures w.begin.Begun? ==>
              forall i :: 0 <= i < |s.trace| && IsCompletion(s.trace[i]) ==>
                (s.turn.status == Complete <==> w.begin.turn.status !in {Failed, Superseded})
  {
    hide Sane, Stored, ChunkText, Attempted, Emissions;
    assert forall i :: 0 <= i < |s.trace| ==> Agrees(s, s.trace[i]);
  }

  /** A final event that tells of the turn tells what is stored. */
  lemma ToldAsStored(w: World, s: Local)
    requires Good(w, s) && AllAgree(s) && Clean(w, s.trace) && Runs(w)
    requires || EndsSaying(s.trace, ResponseStopped(s.partial))
             || EndsSaying(s.trace, ResponseComplete(w.execution.answer))
    requires w.begin.Begun? ==> Attempted(s.trace)
    ensures w.begin.Begun? ==>
              && (EndsSaying(s.trace, ResponseStopped(s.partial)) <==> s.turn.status == Stopped)
              && (EndsSaying(s.trace, ResponseComplete(w.execution.answer)) && s.turn.status != Complete <==>
                  w.begin.turn.status in {Failed, Superseded})
              && (IsOpen(w.begin.turn.status) ==>
                    (s.turn.status == Stopped <==> Cancelled(w, FirstFinish(s.trace) + 1)))
  {
    hide Sane, Stored, ChunkText, Attempted, Emissions, Clean, Cancelled, FirstFinish, Agrees;
    assert Agrees(s, s.trace[|s.trace| - 1]);
    if w.begin.Begun? {
      TurnEvolves(w, s);
      LastAgrees(s, s.trace[|s.trace| - 1], s.partial, w.execution.answer);
      if IsOpen(w.begin.turn.status) {
        hide Good, AllAgree, EndsSaying;
        assert Sane(w, s.trace) && s.turn == Stored(w, s.trace) by { GoodIsSane(w, s); }
        CleanCancelWins(w, s.trace);
      }
    }
  }

  lemma GoodIsSane(w: World, s: Local)
    requires Good(w, s)
    ensures Sane(w, s.trace) && s.turn == Stored(w, s.trace)
  {
    hide Sane, Stored, ChunkText, Attempted, Emissions;
  }

  lemma LastAgrees(s: Local, x: Item, partial: string, answer: string)
    requires s.handle.Some? && Evolved(s.handle.value, s.turn.status, true) && Agrees(s, x)
    requires x.Emitted? && (x.event == ResponseStopped(partial) || x.event == ResponseComplete(answer))
    ensures x.event == ResponseStopped(partial) <==> s.turn.status == Stopped
    ensures x.event == ResponseComplete(answer) && s.turn.status != Complete <==> s.handle.value in {Failed, Superseded}
  {
  }

  lemma FailedIsStored(w: World, trace: seq<Item>)
    requires Sane(w, trace) && Clean(w, trace) && EndsFailed(w, trace) && w.begin.Begun?
    ensures IsOpen(w.begin.turn.status) ==>
              Stored(w, trace).status == if Cancelled(w, |trace| - 1) then Stopped else Failed
  {
    var n := |trace| - 2;
    EndingStatus(w, trace);
    assert Smooth(w, n, trace[n]);
    hide Sane, Clean, Smooth, Attempted, Cancelled, Stored;
    if IsOpen(w.begin.turn.status) {
      CancelWinsExactly(w, trace, n);
    }
  }

  /** Sending the identifier of a failed turn again: the client is told that the turn is complete. */
  method ResendFailedTurn(answer: string) returns (w: World, s: Local, signal: Signal)
    ensures w.begin == Begun(Turn(Failed, "")) && signal.Normal?
    ensures EndsSaying(s.trace, ResponseComplete(answer)) && s.turn.status == Failed
  {
    w := World(Begun(Turn(Failed, "")), Executed(answer, [], false), n => false, n => Done, n => Normal, Normal, false,
               180, false);
    s, signal := Stream(w);
    assert Clean(w, s.trace) && Runs(w);
    assert EndsSaying(s.trace, ResponseComplete(answer));
    assert Agrees(s, s.trace[|s.trace| - 1]);
  }

  /** An exception thrown at the yield of the terminal event: the client is told twice that the stream ended. */
  method ThrowAtTheEnd() returns (w: World, s: Local, signal: Signal)
    ensures |s.trace| >= 2 && s.trace[0] == Emitted(1, Error(TurnConflict)) && w.wake(0) == Raised(OrdinaryError)
    ensures IsFallback(s.trace[1])
  {
    w := World(Conflict, Executed("", [], false), n => false, n => Done, n => Raised(OrdinaryError), Normal, false, 180,
               false);
    s, signal := Stream(w);
    assert IsTerminal(s.trace[0]);
  }
}
