/** The agent loop: a model that may return anything, tools that may answer anything, and cancellation at any point. */
module AgentLoop {
  import opened Common
  import opened Evidence
  import opened Planner

  // ---- what the model and the tools say ----

  /** `id` is absent when the model left it out. */
  datatype ToolCall = ToolCall(name: string, args: Args, id: Option<string>)

  datatype Response = Failed | Reply(calls: seq<ToolCall>, content: string) | ModelInterrupted

  /** A tool's answer.  `documents` and `evidence` are present when they are lists of documents; `rest` stands for
      everything else in the dictionary. */
  datatype Observation = Observation(documents: Option<seq<Document>>, hit: bool, evidence: Option<seq<Document>>,
                                     ok: Option<bool>, error: string, budgetDenied: bool, awaitsUser: bool,
                                     question: string, rest: string)

  datatype PollReply = GoOn | UserCancelled | PollInterrupted

  // ---- messages ----

  datatype CallId = Given(id: string) | Default(step: nat, tool: string)

  datatype Shown = Shown(document: Document, citationIndex: int)

  datatype Body = Denied(check: Check) | ClarificationRecorded | InFull(observation: Observation)
                | Excerpts(shown: seq<Shown>, totalFound: nat, rest: Observation)

  datatype Message = Opening(text: string) | Assistant(step: nat, calls: seq<ToolCall>, content: string) | Nudge
                   | ToolReply(id: CallId, body: Body)

  // ---- events and results ----

  datatype AgentStep = AgentStep(step: nat, entry: Entry, observation: Observation, allowed: bool, check: Check)

  datatype Reason = AnswerComplete | CacheHit | InsufficientEvidence | ModelError | CancelledByUser | AwaitingUserInput

  datatype Result = Result(reason: Reason, answer: string, trajectory: seq<AgentStep>, evidence: seq<Document>,
                           stepsTaken: int, cacheHit: bool, assessment: Option<Observation>,
                           financial: Option<Observation>)

  datatype Status = Completed | Refused | TimedOut | Erroneous

  datatype Event = AgentToolCall(step: nat, call: Entry) | AgentToolResult(step: nat, tool: string, status: Status)
                 | AgentComplete(result: Result)

  /** The generator's local variables, with the calls executed so far. */
  datatype Run = Run(messages: seq<Message>, trajectory: seq<AgentStep>, evidence: seq<Document>, cacheHit: bool,
                     assessment: Option<Observation>, financial: Option<Observation>, events: seq<Event>, polls: nat,
                     executed: seq<Entry>)

  /** Everything the loop depends on.  `closes(n)` says that the consumer closes the generator at its n-th event. */
  datatype World = World(
    codec: Codec,
    model: (nat, seq<Message>) -> Response,
    execute: (nat, Entry) -> Option<Observation>,
    cancelled: nat -> PollReply,
    closes: nat -> bool,
    prepare: Args -> Args,
    mustSearch: string -> bool,
    asksSubstance: bool,
    anchored: (string, seq<Document>) -> string)

  /** The run is not interrupted: the consumer reads on, and no poll, tool or model call is cancelled from outside. */
  ghost predicate Undisturbed(w: World) {
    && (forall n: nat :: !w.closes(n) && !w.cancelled(n).PollInterrupted?)
    && (forall n: nat, e: Entry :: w.execute(n, e).Some?)
    && (forall n: nat, m: seq<Message> :: !w.model(n, m).ModelInterrupted?)
  }

  /** How one call, or the run, ended. */
  datatype Flow = Continue | Finished | Interrupted

  const CACHE_LOOKUP := "lookup_answer_cache"
  const EVALUATE := "evaluate_legal_case"
  const CALCULATE := "calculate_statutory_amounts"
  const PAYLOAD := {AnswerComplete, CacheHit, InsufficientEvidence}
  const DEFAULT_QUESTION := "Bạn có thể cung cấp thêm thông tin cần thiết không?"
  const CLARIFY := "ask_user_for_clarification"

  function StatusOf(o: Observation): Status {
    if o.budgetDenied then Refused
    else if Contains("timed out", o.error) then TimedOut
    else if o.ok == Some(false) || o.error != "" then Erroneous
    else Completed
  }

  function IdOf(step: nat, call: ToolCall): CallId {
    if call.id.Some? then Given(call.id.value) else Default(step, call.name)
  }

  /** The documents that an observation adds to the evidence. */
  function NewDocuments(tool: string, o: Observation): seq<Document> {
    if o.documents.Some? then o.documents.value
    else if tool == CACHE_LOOKUP && o.hit && o.evidence.Some? then o.evidence.value
    else []
  }

  function FirstFour(documents: seq<Document>): seq<Document> {
    if |documents| <= 4 then documents else documents[..4]
  }

  /** The observation as the model will read it: at most four excerpts, under their global citation indices. */
  function Compact(o: Observation, indices: seq<int>): Body {
    if o.documents.Some? then
      var first := FirstFour(o.documents.value);
      Excerpts(seq(|first|, i requires 0 <= i < |first| =>
                     Shown(first[i], if i < |indices| then indices[i] else i + 1)),
               |o.documents.value|, o)
    else InFull(o)
  }

  // ---- what the steps amount to ----

  function EntryOf(w: World, call: ToolCall): Entry {
    Entry(call.name, if call.name == LEGAL_SEARCH then w.prepare(call.args) else call.args)
  }

  /** The documents that a step adds to the evidence. */
  function Brought(s: AgentStep): seq<Document> {
    if s.allowed then NewDocuments(s.entry.tool, s.observation) else []
  }

  /** The evidence that the steps brought. */
  ghost function Gathered(c: Codec, trajectory: seq<AgentStep>): seq<Document> {
    if trajectory == [] then []
    else
      var n := |trajectory| - 1;
      Grown(c, Gathered(c, trajectory[..n]), Brought(trajectory[n]))
  }

  /** The last observation of a tool that was a success. */
  function LastOk(trajectory: seq<AgentStep>, tool: string): Option<Observation> {
    if trajectory == [] then None
    else
      var n := |trajectory| - 1;
      var s := trajectory[n];
      if s.allowed && s.entry.tool == tool && s.observation.ok == Some(true) then Some(s.observation)
      else LastOk(trajectory[..n], tool)
  }

  function CallEvent(step: nat, entry: Entry): Event { AgentToolCall(step + 1, entry) }

  function ResultEvent(s: AgentStep): Event { AgentToolResult(s.step + 1, s.entry.tool, StatusOf(s.observation)) }

  /** What the client is told of the steps: each call when it is made, and then how it ended. */
  function Announced(trajectory: seq<AgentStep>): seq<Event> {
    if trajectory == [] then []
    else
      var n := |trajectory| - 1;
      Announced(trajectory[..n]) + [CallEvent(trajectory[n].step, trajectory[n].entry), ResultEvent(trajectory[n])]
  }

  /** The user's cancel is looked for before each call is checked, and again after it was executed. */
  function PollsFor(trajectory: seq<AgentStep>): nat {
    if trajectory == [] then 0
    else
      var n := |trajectory| - 1;
      PollsFor(trajectory[..n]) + if trajectory[n].allowed then 2 else 1
  }

  function ReasonText(check: Check): string {
    match check
    case Allowed => "ok"
    case LoopDetected => "loop_detected"
    case SearchBudgetExceeded => "search_budget_exceeded"
    case WebBudgetExceeded => "web_budget_exceeded"
  }

  function DenialOf(check: Check): Observation {
    Observation(None, false, None, Some(false), ReasonText(check), true, false, "", "")
  }

  predicate IsCacheHit(s: AgentStep) { s.allowed && s.entry.tool == CACHE_LOOKUP && s.observation.hit }

  /** The run knows whether an executed call hit the answer cache. */
  ghost predicate Remembers(trajectory: seq<AgentStep>, cacheHit: bool) {
    cacheHit <==> exists i :: 0 <= i < |trajectory| && IsCacheHit(trajectory[i])
  }

  lemma StepAdded(w: World, trajectory: seq<AgentStep>, s: AgentStep)
    ensures Gathered(w.codec, trajectory + [s]) == Grown(w.codec, Gathered(w.codec, trajectory), Brought(s))
    ensures Announced(trajectory + [s]) == Announced(trajectory) + [CallEvent(s.step, s.entry), ResultEvent(s)]
    ensures PollsFor(trajectory + [s]) == PollsFor(trajectory) + if s.allowed then 2 else 1
    ensures forall tool :: LastOk(trajectory + [s], tool) ==
                           if s.allowed && s.entry.tool == tool && s.observation.ok == Some(true)
                           then Some(s.observation) else LastOk(trajectory, tool)
  {
    assert (trajectory + [s])[..|trajectory|] == trajectory;
    hide Grown, StatusOf;
  }

  /** The step shows what the controller decided, and what the tool answered. */
  ghost predicate Genuine(w: World, l: Limits, before: seq<AgentStep>, s: AgentStep) {
    && s.check == CheckToolCall(l, s.entry, History(before)) && (s.allowed <==> s.check == Allowed)
    && if s.allowed then w.execute(|before|, s.entry) == Some(s.observation) else s.observation == DenialOf(s.check)
  }

  ghost predicate AllGenuine(w: World, l: Limits, trajectory: seq<AgentStep>) {
    forall i :: 0 <= i < |trajectory| ==> Genuine(w, l, trajectory[..i], trajectory[i])
  }

  lemma OneMoreGenuine(w: World, l: Limits, trajectory: seq<AgentStep>, s: AgentStep)
    requires AllGenuine(w, l, trajectory) && Genuine(w, l, trajectory, s)
    ensures AllGenuine(w, l, trajectory + [s])
  {
    hide Genuine;
    forall i | 0 <= i <= |trajectory|
      ensures Genuine(w, l, (trajectory + [s])[..i], (trajectory + [s])[i])
    {
      assert (trajectory + [s])[..i] == trajectory[..i];
      assert trajectory[..|trajectory|] == trajectory;
    }
  }

  /** The step asks the user something. */
  predicate AsksUser(s: AgentStep) { s.allowed && (s.entry.tool == CLARIFY || s.observation.awaitsUser) }

  /** Early in a run on a question of substance the model is told to search first. */
  predicate Excused(w: World, s: AgentStep, evidence: seq<Document>) { w.asksSubstance && s.step < 2 && evidence == [] }

  /** The steps of a number that asked the user something were all excused. */
  ghost predicate Excuses(w: World, trajectory: seq<AgentStep>, n: int) {
    forall i :: 0 <= i < n && i < |trajectory| && AsksUser(trajectory[i]) ==>
                  Excused(w, trajectory[i], Gathered(w.codec, trajectory[..i + 1]))
  }

  // ---- invariants ----

  function History(trajectory: seq<AgentStep>): seq<Entry> {
    seq(|trajectory|, i requires 0 <= i < |trajectory| => trajectory[i].entry)
  }

  function Verdicts(trajectory: seq<AgentStep>): seq<bool> {
    seq(|trajectory|, i requires 0 <= i < |trajectory| => trajectory[i].allowed)
  }

  /** The trajectory shows what the budget controller decided, and the allowed calls are the executed ones. */
  ghost predicate Accounted(l: Limits, trajectory: seq<AgentStep>, executed: seq<Entry>) {
    && Governed(l, History(trajectory), Verdicts(trajectory))
    && executed == Executed(History(trajectory), Verdicts(trajectory))
  }

  /** Every citation index in the messages leads to a document with the identity it was issued for. */
  ghost predicate Truthful(c: Codec, messages: seq<Message>, evidence: seq<Document>) {
    forall i :: 0 <= i < |messages| && messages[i].ToolReply? ==> TruthfulBody(c, messages[i].body, evidence)
  }

  ghost predicate TruthfulBody(c: Codec, b: Body, evidence: seq<Document>) {
    b.Excerpts? ==>
      forall i :: 0 <= i < |b.shown| ==>
        PointsTo(c, evidence, b.shown[i].citationIndex, Identity(c, b.shown[i].document))
  }

  /** No final event yet. */
  ghost predicate Open(events: seq<Event>) {
    forall i :: 0 <= i < |events| ==> !events[i].AgentComplete?
  }

  /** Exactly one final event, and it is the last. */
  ghost predicate Closed(events: seq<Event>) {
    events != [] && Open(events[..|events| - 1]) && events[|events| - 1].AgentComplete?
  }

  /** The local variables sum up the steps. */
  ghost predicate Summed(w: World, run: Run) {
    && run.evidence == Gathered(w.codec, run.trajectory)
    && Remembers(run.trajectory, run.cacheHit)
    && run.assessment == LastOk(run.trajectory, EVALUATE)
    && run.financial == LastOk(run.trajectory, CALCULATE)
  }

  /** The first polls found no cancel. */
  ghost predicate PollsGoOn(w: World, n: int) { forall p: nat :: p < n ==> w.cancelled(p) == GoOn }

  /** The consumer reads on after each of the first events. */
  ghost predicate Reads(w: World, n: int) { forall i: nat :: 0 < i <= n ==> !w.closes(i) }

  /** Nothing has stopped the run: every step was announced, no poll found a cancel, no event met a closed consumer, and
      no step waits for the user. */
  ghost predicate Unstopped(w: World, run: Run) {
    && run.events == Announced(run.trajectory)
    && PollsGoOn(w, run.polls) && Reads(w, |run.events|)
    && Excuses(w, run.trajectory, |run.trajectory|)
  }

  /** Nothing has stopped the run before the point it has reached. */
  ghost predicate NotBefore(w: World, run: Run) {
    && Announced(run.trajectory) <= run.events && |run.events| <= |Announced(run.trajectory)| + 2
    && PollsGoOn(w, run.polls - 1) && Reads(w, |run.events| - 1)
    && Excuses(w, run.trajectory, |run.trajectory| - 1)
  }

  ghost predicate Healthy(w: World, l: Limits, run: Run) {
    && Accounted(l, run.trajectory, run.executed) && AllGenuine(w, l, run.trajectory)
    && DistinctIdentities(w.codec, run.evidence)
    && Truthful(w.codec, run.messages, run.evidence)
    && Open(run.events)
    && Summed(w, run) && Unstopped(w, run)
  }

  /** The run was cut at the point it has reached: by its consumer, at a poll, or in the tool it called last. */
  predicate Cut(w: World, run: Run) {
    || w.closes(|run.events|)
    || (0 < run.polls && w.cancelled(run.polls - 1).PollInterrupted?)
    || (run.executed != [] && w.execute(|run.trajectory|, run.executed[|run.executed| - 1]).None?)
  }

  /** The final result reports the run: its trajectory, and its evidence unless the user is asked a question. */
  ghost predicate Reports(run: Run) {
    && Closed(run.events)
    && var r := run.events[|run.events| - 1].result;
       && r.trajectory == run.trajectory
       && r.evidence == (if r.reason == AwaitingUserInput then [] else run.evidence)
       && r.assessment == (if r.reason in PAYLOAD then run.assessment else None)
       && r.financial == (if r.reason in PAYLOAD then run.financial else None)
       && (r.cacheHit <==> r.reason in {AnswerComplete, CacheHit} && run.cacheHit)
  }

  function FinalResult(run: Run): Result
    requires run.events != [] && run.events[|run.events| - 1].AgentComplete?
  {
    run.events[|run.events| - 1].result
  }

  predicate EndsFor(run: Run, reason: Reason) {
    && run.events != [] && run.events[|run.events| - 1].AgentComplete?
    && run.events[|run.events| - 1].result.reason == reason
  }

  /** The final result was not the model's: the user cancelled, or is asked a question. */
  predicate EndedByUser(run: Run) { EndsFor(run, CancelledByUser) || EndsFor(run, AwaitingUserInput) }

  /** The evidence holds what the steps brought, or all but what the last one did. */
  ghost predicate Trails(c: Codec, run: Run) {
    || run.evidence == Gathered(c, run.trajectory)
    || (run.trajectory != [] && run.evidence == Gathered(c, run.trajectory[..|run.trajectory| - 1]))
  }

  /** The run ends cancelled exactly when its last poll found the user's cancel. */
  ghost predicate EndsOnCancel(w: World, run: Run) {
    EndsFor(run, CancelledByUser) <==> 0 < run.polls && w.cancelled(run.polls - 1) == UserCancelled
  }

  /** A run that ends with a question ends at a step that asks it, and was not excused. */
  ghost predicate EndsOnQuestion(w: World, run: Run) {
    EndsFor(run, AwaitingUserInput) ==>
      && run.trajectory != []
      && var s := run.trajectory[|run.trajectory| - 1];
         && AsksUser(s) && !Excused(w, s, run.evidence)
         && FinalResult(run).answer == Or(s.observation.question, DEFAULT_QUESTION)
         && FinalResult(run).stepsTaken == s.step + 1
  }

  /** So far everything was right, and no final event was sent. */
  ghost predicate Going(w: World, l: Limits, run: Run) {
    && AllGenuine(w, l, run.trajectory) && NotBefore(w, run) && Trails(w.codec, run)
    && DistinctIdentities(w.codec, run.evidence) && Truthful(w.codec, run.messages, run.evidence)
    && Open(run.events) && |run.events| <= |Announced(run.trajectory)| + 1
  }

  /** The run is over, and everything it did so far was right. */
  ghost predicate Over(w: World, l: Limits, run: Run, flow: Flow) {
    && AllGenuine(w, l, run.trajectory) && NotBefore(w, run) && Trails(w.codec, run)
    && DistinctIdentities(w.codec, run.evidence) && Truthful(w.codec, run.messages, run.evidence)
    && (flow.Interrupted? ==> Open(run.events))
    && (flow.Finished? ==>
          && Accounted(l, run.trajectory, run.executed) && Reports(run)
          && EndsOnCancel(w, run) && EndsOnQuestion(w, run)
          && (EndsFor(run, CancelledByUser) || Summed(w, run)))
  }

  lemma Recorded(l: Limits, trajectory: seq<AgentStep>, executed: seq<Entry>, s: AgentStep)
    requires Accounted(l, trajectory, executed) && 0 <= l.searches && 0 <= l.webSearches
    requires s.allowed <==> CheckToolCall(l, s.entry, History(trajectory)) == Allowed
    ensures Accounted(l, trajectory + [s], executed + if s.allowed then [s.entry] else [])
    ensures WithinBudgets(l, executed + if s.allowed then [s.entry] else [])
  {
    assert History(trajectory + [s]) == History(trajectory) + [s.entry];
    assert Verdicts(trajectory + [s]) == Verdicts(trajectory) + [s.allowed];
    hide History, Verdicts, CheckToolCall, Executed, WithinBudgets, Governed;
    GovernedMore(l, History(trajectory), Verdicts(trajectory), s.entry, s.allowed);
    ExecutionsStayWithinBudgets(l, History(trajectory + [s]), Verdicts(trajectory + [s]));
  }

  lemma TruthfulLater(c: Codec, messages: seq<Message>, evidence: seq<Document>, later: seq<Document>)
    requires Truthful(c, messages, evidence) && evidence <= later
    ensures Truthful(c, messages, later)
  {
    forall i | 0 <= i < |messages| && messages[i].ToolReply?
      ensures TruthfulBody(c, messages[i].body, later)
    {
      assert TruthfulBody(c, messages[i].body, evidence);
    }
  }

  lemma TruthfulMore(c: Codec, messages: seq<Message>, m: Message, evidence: seq<Document>)
    requires Truthful(c, messages, evidence)
    requires m.ToolReply? && m.body.Excerpts? ==> TruthfulBody(c, m.body, evidence)
    ensures Truthful(c, messages + [m], evidence)
  {
    hide PointsTo, Identity;
  }

  lemma CompactIsTruthful(c: Codec, o: Observation, indices: seq<int>, evidence: seq<Document>)
    requires o.documents.Some? ==>
               |indices| == |o.documents.value|
               && forall i :: 0 <= i < |indices| ==>
                    PointsTo(c, evidence, indices[i], Identity(c, o.documents.value[i]))
    ensures TruthfulBody(c, Compact(o, indices), evidence)
  {
    hide Identity, PointsTo;
  }

  // ---- one tool call ----

  function Emit(run: Run, e: Event): (after: Run)
    ensures Open(run.events) && !e.AgentComplete? ==> Open(after.events)
  {
    run.(events := run.events + [e])
  }

  function Complete(run: Run, reason: Reason, answer: string, evidence: seq<Document>, stepsTaken: int): (after: Run)
    ensures Open(run.events) && evidence == (if reason == AwaitingUserInput then [] else run.evidence) ==>
              Reports(after)
    ensures after == run.(events := after.events) && EndsFor(after, reason)
    ensures FinalResult(after).answer == answer && FinalResult(after).stepsTaken == stepsTaken
  {
    var answered := reason == AnswerComplete || reason == CacheHit;
    var payloads := answered || reason == InsufficientEvidence;
    var after := Emit(run, AgentComplete(Result(reason, answer, run.trajectory, evidence, stepsTaken,
                                                answered && run.cacheHit,
                                                if payloads then run.assessment else None,
                                                if payloads then run.financial else None)));
    assert after.events[..|run.events|] == run.events;
    after
  }

  function Replied(run: Run, step: nat, call: ToolCall, body: Body): Run {
    run.(messages := run.messages + [ToolReply(IdOf(step, call), body)])
  }

  /** The reply shows the decision, or the observation with its first documents under valid indices. */
  predicate Reflects(s: AgentStep, body: Body) {
    if !s.allowed then body == Denied(s.check)
    else if AsksUser(s) then body == ClarificationRecorded
    else if s.observation.documents.None? then body == InFull(s.observation)
    else
      body.Excerpts? && body.totalFound == |s.observation.documents.value| && body.rest == s.observation
      && var first := FirstFour(s.observation.documents.value);
         |body.shown| == |first| && forall i :: 0 <= i < |first| ==> body.shown[i].document == first[i]
  }

  /** Record a step and announce its status. */
  function Stepped(run: Run, s: AgentStep): Run {
    Emit(run.(trajectory := run.trajectory + [s]), AgentToolResult(s.step + 1, s.entry.tool, StatusOf(s.observation)))
  }

  lemma RemembersMore(trajectory: seq<AgentStep>, cacheHit: bool, s: AgentStep)
    requires Remembers(trajectory, cacheHit)
    ensures Remembers(trajectory + [s], cacheHit || IsCacheHit(s))
  {
    hide IsCacheHit;
    var longer := trajectory + [s];
    assert longer[|trajectory|] == s;
    assert forall i :: 0 <= i < |trajectory| ==> longer[i] == trajectory[i];
    if cacheHit {
      var i :| 0 <= i < |trajectory| && IsCacheHit(trajectory[i]);
      assert IsCacheHit(longer[i]);
    }
  }

  /** At most one step was made, for this call. */
  ghost predicate OneCall(w: World, step: nat, call: ToolCall, before: seq<AgentStep>, after: seq<AgentStep>) {
    || after == before
    || (|after| == |before| + 1 && after[..|before|] == before
        && after[|before|].step == step && after[|before|].entry == EntryOf(w, call))
  }

  /** The polls made beside those for the steps: one before each model call. */
  function Spare(run: Run): int { run.polls - PollsFor(run.trajectory) }

  lemma HealthyGoes(w: World, l: Limits, run: Run)
    requires Healthy(w, l, run)
    ensures Going(w, l, run) && Over(w, l, run, Interrupted) && Accounted(l, run.trajectory, run.executed)
    ensures (run.events == [] || !w.closes(|run.events|)) && (0 < run.polls ==> w.cancelled(run.polls - 1) == GoOn)
    ensures Truthful(w.codec, run.messages, run.evidence) && DistinctIdentities(w.codec, run.evidence)
    ensures Summed(w, run) && Remembers(run.trajectory, run.cacheHit)
  {
    hide Announced, Gathered, AllGenuine, Truthful, DistinctIdentities, Accounted, Open, LastOk;
  }

  lemma OpenMore(events: seq<Event>, e: Event)
    requires Open(events) && !e.AgentComplete?
    ensures Open(events + [e])
  {
  }

  /** A call is announced. */
  lemma CallGoes(w: World, l: Limits, run: Run, after: Run, e: Event)
    requires Healthy(w, l, run) && e.AgentToolCall? && run.polls <= after.polls <= run.polls + 1
    requires after == run.(events := run.events + [e], polls := after.polls, executed := after.executed)
    ensures Going(w, l, after) && Over(w, l, after, Interrupted) && Accounted(l, run.trajectory, run.executed)
  {
    hide Announced, Gathered, AllGenuine, Truthful, DistinctIdentities, Accounted, LastOk, Excuses, Remembers, Open;
    HealthyGoes(w, l, run);
    OpenMore(run.events, e);
  }

  /** What a step does to the run, but for evidence, sums and messages. */
  predicate Notes(run: Run, s: AgentStep, after: Run) {
    && after.trajectory == run.trajectory + [s]
    && after.events == run.events + [CallEvent(s.step, s.entry), ResultEvent(s)]
    && after.executed == run.executed + if s.allowed then [s.entry] else []
  }

  lemma StepGoes(w: World, l: Limits, run: Run, s: AgentStep, after: Run)
    requires Healthy(w, l, run) && Genuine(w, l, run.trajectory, s) && Notes(run, s, after)
    requires after.polls == run.polls + 1 || (s.allowed && after.polls == run.polls + 2)
    requires w.cancelled(run.polls) == GoOn && !w.closes(|run.events| + 1)
    requires after.evidence == run.evidence || after.evidence == Grown(w.codec, run.evidence, Brought(s))
    requires Truthful(w.codec, after.messages, after.evidence) && DistinctIdentities(w.codec, after.evidence)
    requires 0 <= l.searches && 0 <= l.webSearches
    ensures Going(w, l, after) && Over(w, l, after, Interrupted) && Accounted(l, after.trajectory, after.executed)
    ensures PollsFor(after.trajectory) == PollsFor(run.trajectory) + if s.allowed then 2 else 1
    ensures WithinBudgets(l, after.executed)
  {
    hide Accounted, AllGenuine, Genuine, Excuses, Announced, Gathered, LastOk, Grown, PollsFor, Truthful, Remembers;
    hide DistinctIdentities, Open, WithinBudgets, History, CheckToolCall, Brought, Excused, AsksUser;
    StepFollows(w, l, run, s, after);
    assert after.trajectory[..|after.trajectory| - 1] == run.trajectory;
  }

  lemma ExcusesLater(w: World, trajectory: seq<AgentStep>, s: AgentStep)
    requires Excuses(w, trajectory, |trajectory|)
    ensures Excuses(w, trajectory + [s], |trajectory|)
    ensures (AsksUser(s) ==> Excused(w, s, Gathered(w.codec, trajectory + [s]))) ==>
              Excuses(w, trajectory + [s], |trajectory| + 1)
  {
    hide AsksUser, Excused, Gathered;
    assert forall i :: 0 <= i < |trajectory| ==> (trajectory + [s])[i] == trajectory[i];
    forall i | 0 <= i < |trajectory| && AsksUser((trajectory + [s])[i])
      ensures Excused(w, (trajectory + [s])[i], Gathered(w.codec, (trajectory + [s])[..i + 1]))
    {
      assert (trajectory + [s])[..i + 1] == trajectory[..i + 1];
    }
    assert (trajectory + [s])[..|trajectory| + 1] == trajectory + [s];
  }

  /** The local variables after a step of its own. */
  ghost predicate Takes(w: World, run: Run, s: AgentStep, after: Run) {
    && after.evidence == Grown(w.codec, run.evidence, Brought(s))
    && (after.cacheHit <==> run.cacheHit || IsCacheHit(s))
    && after.assessment == LastOk(run.trajectory + [s], EVALUATE)
    && after.financial == LastOk(run.trajectory + [s], CALCULATE)
  }

  lemma DenialTakes(w: World, run: Run, s: AgentStep, after: Run)
    requires Summed(w, run) && !s.allowed
    requires after.evidence == run.evidence && after.cacheHit == run.cacheHit
    requires after.assessment == run.assessment && after.financial == run.financial
    ensures Takes(w, run, s, after)
  {
    SumsLater(w, run, s);
  }

  lemma ObservationTakes(w: World, run: Run, s: AgentStep, taken: Run, after: Run)
    requires Summed(w, run) && s.allowed && taken.evidence == Grown(w.codec, run.evidence, Brought(s))
    requires taken.cacheHit == run.cacheHit && taken.assessment == run.assessment && taken.financial == run.financial
    requires after == Tracked(taken, s.entry.tool, s.observation)
    ensures Takes(w, run, s, after)
  {
    SumsLater(w, run, s);
    hide Summed, LastOk, Grown, Brought;
  }

  lemma StepSums(w: World, run: Run, s: AgentStep, after: Run)
    requires Summed(w, run) && Takes(w, run, s, after) && after.trajectory == run.trajectory + [s]
    ensures Summed(w, after)
  {
    SumsLater(w, run, s);
    StepAdded(w, run.trajectory, s);
    RemembersMore(run.trajectory, run.cacheHit, s);
    hide Gathered, Grown, Remembers, LastOk, Brought, IsCacheHit;
  }

  lemma SummedGathers(w: World, run: Run)
    requires Summed(w, run)
    ensures run.evidence == Gathered(w.codec, run.trajectory)
  {
  }

  lemma SumsLater(w: World, run: Run, s: AgentStep)
    requires Summed(w, run)
    ensures LastOk(run.trajectory + [s], EVALUATE) ==
            if s.allowed && s.entry.tool == EVALUATE && s.observation.ok == Some(true) then Some(s.observation)
            else run.assessment
    ensures LastOk(run.trajectory + [s], CALCULATE) ==
            if s.allowed && s.entry.tool == CALCULATE && s.observation.ok == Some(true) then Some(s.observation)
            else run.financial
  {
    assert (run.trajectory + [s])[..|run.trajectory|] == run.trajectory;
  }

  /** The trajectory, the announced events and the polls after one more step. */
  lemma StepFollows(w: World, l: Limits, run: Run, s: AgentStep, after: Run)
    requires Healthy(w, l, run) && Genuine(w, l, run.trajectory, s) && Notes(run, s, after)
    requires 0 <= l.searches && 0 <= l.webSearches
    ensures AllGenuine(w, l, after.trajectory) && after.events == Announced(after.trajectory) && Open(after.events)
    ensures Accounted(l, after.trajectory, after.executed) && WithinBudgets(l, after.executed)
    ensures PollsFor(after.trajectory) == PollsFor(run.trajectory) + if s.allowed then 2 else 1
    ensures Gathered(w.codec, after.trajectory) == Grown(w.codec, run.evidence, Brought(s))
    ensures Excuses(w, after.trajectory, |after.trajectory| - 1)
    ensures (AsksUser(s) ==> Excused(w, s, Grown(w.codec, run.evidence, Brought(s)))) ==>
              Excuses(w, after.trajectory, |after.trajectory|)
  {
    hide Announced, Gathered, AllGenuine, Truthful, DistinctIdentities, Accounted, LastOk, Excuses, PollsFor;
    hide WithinBudgets, CheckToolCall, History, AsksUser, Excused, Remembers, Grown, PollsGoOn, Reads, Brought;
    hide StatusOf;
    StepAdded(w, run.trajectory, s);
    OneMoreGenuine(w, l, run.trajectory, s);
    Recorded(l, run.trajectory, run.executed, s);
    ExcusesLater(w, run.trajectory, s);
  }

  /** A step that was announced, taken in, and did not stop the run. */
  lemma StepHeals(w: World, l: Limits, run: Run, s: AgentStep, after: Run)
    requires Healthy(w, l, run) && Genuine(w, l, run.trajectory, s) && Notes(run, s, after) && Takes(w, run, s, after)
    requires after.polls == run.polls + if s.allowed then 2 else 1
    requires w.cancelled(run.polls) == GoOn && !w.closes(|run.events| + 1) && !w.closes(|run.events| + 2)
    requires s.allowed ==> w.cancelled(run.polls + 1) == GoOn
    requires AsksUser(s) ==> Excused(w, s, after.evidence)
    requires Truthful(w.codec, after.messages, after.evidence) && DistinctIdentities(w.codec, after.evidence)
    requires 0 <= l.searches && 0 <= l.webSearches
    ensures Healthy(w, l, after) && Spare(after) == Spare(run)
  {
    hide Accounted, AllGenuine, Genuine, Excuses, Announced, Gathered, LastOk, Grown, PollsFor, Truthful, Remembers;
    hide DistinctIdentities, Open, WithinBudgets, History, CheckToolCall, Brought, Excused, AsksUser, Summed, Takes;
    StepFollows(w, l, run, s, after);
    StepSums(w, run, s, after);
    assert after.evidence == Gathered(w.codec, after.trajectory) by { SummedGathers(w, after); }
  }

  /** Send the final event. */
  lemma EndsNow(w: World, l: Limits, run: Run, reason: Reason, answer: string, evidence: seq<Document>, stepsTaken: int)
    requires Going(w, l, run) && Accounted(l, run.trajectory, run.executed)
    requires run.events == [] || !w.closes(|run.events|)
    requires evidence == if reason == AwaitingUserInput then [] else run.evidence
    requires reason == CancelledByUser <==> 0 < run.polls && w.cancelled(run.polls - 1) == UserCancelled
    requires reason == CancelledByUser || Summed(w, run)
    requires reason == AwaitingUserInput ==>
               && run.trajectory != []
               && var s := run.trajectory[|run.trajectory| - 1];
                  && AsksUser(s) && !Excused(w, s, run.evidence)
                  && answer == Or(s.observation.question, DEFAULT_QUESTION) && stepsTaken == s.step + 1
    ensures Over(w, l, Complete(run, reason, answer, evidence, stepsTaken), Finished)
  {
    hide Accounted, AllGenuine, Genuine, Excuses, Announced, Gathered, LastOk, Grown, PollsFor, Truthful, Remembers;
    hide DistinctIdentities, Open, WithinBudgets, History, CheckToolCall, Brought, Excused, AsksUser;
    var after := Complete(run, reason, answer, evidence, stepsTaken);
    assert after == run.(events := after.events) && run.events <= after.events;
    assert Reports(after) && EndsFor(after, reason);
    hide Reports, Complete;
    assert Summed(w, run) ==> Summed(w, after);
    hide Summed;
  }

  /** What carrying out a tool call comes to. */
  ghost predicate Handles(w: World, l: Limits, step: nat, call: ToolCall, run: Run, after: Run, flow: Flow) {
    && run.evidence <= after.evidence && run.messages <= after.messages
    && OneCall(w, step, call, run.trajectory, after.trajectory)
    && (WithinBudgets(l, run.executed) ==> WithinBudgets(l, after.executed))
    && Spare(run) - 1 <= Spare(after) <= Spare(run) + 1
    // it stops the run only as it should
    && (flow.Finished? ==> EndedByUser(after))
    && (flow.Interrupted? ==> Cut(w, after))
    && (!flow.Continue? ==> Over(w, l, after, flow))
    // or it makes one step and one reply that shows it
    && (flow.Continue? ==>
          && Healthy(w, l, after) && Spare(after) == Spare(run)
          && |after.trajectory| == |run.trajectory| + 1 && |after.messages| == |run.messages| + 1
          && var s, m := after.trajectory[|run.trajectory|], after.messages[|run.messages|];
             && m.ToolReply? && m.id == IdOf(step, call) && Reflects(s, m.body)
             && after.evidence == Grown(w.codec, run.evidence, Brought(s)))
  }

  /** The call was announced, and no cancel was found. */
  predicate IsCalled(w: World, step: nat, entry: Entry, run: Run, called: Run) {
    && called == run.(events := run.events + [CallEvent(step, entry)], polls := run.polls + 1)
    && w.cancelled(run.polls) == GoOn && !w.closes(|run.events| + 1)
  }

  /** Carry out one tool call of the model, from announcing it to its reply. */
  method CallTool(w: World, l: Limits, step: nat, call: ToolCall, run: Run) returns (after: Run, flow: Flow)
    requires Healthy(w, l, run) && 0 <= l.searches && 0 <= l.webSearches
    ensures Handles(w, l, step, call, run, after, flow)
    ensures Undisturbed(w) ==> !flow.Interrupted?
  {
    hide Over, Healthy, Summed, Unstopped, StatusOf, History, Identity, PointsTo, Open, Reports, Complete, Accounted;
    hide DistinctIdentities, Truthful, WithinBudgets, CheckToolCall, Executed, Going, AllGenuine, Announced, PollsFor;
    hide Gathered, Remembers, LastOk, Grown, TruthfulBody;
    var entry := EntryOf(w, call);
    after := Emit(run, CallEvent(step, entry));
    CallGoes(w, l, run, after, CallEvent(step, entry));
    if w.closes(|after.events|) {
      return after, Interrupted;
    }
    var polled := w.cancelled(after.polls);
    after := after.(polls := after.polls + 1);
    CallGoes(w, l, run, after, CallEvent(step, entry));
    if polled.PollInterrupted? {
      return after, Interrupted;
    }
    if polled.UserCancelled? {
      EndsNow(w, l, after, CancelledByUser, "", after.evidence, |after.trajectory|);
      after := Complete(after, CancelledByUser, "", after.evidence, |after.trajectory|);
      return after, Finished;
    }
    var check := CheckToolCall(l, entry, History(after.trajectory));
    if check != Allowed {
      after, flow := Deny(w, l, step, call, check, run, after);
    } else {
      after, flow := Execute(w, l, step, call, run, after);
    }
  }

  /** Tell the model why its call is denied. */
  method Deny(w: World, l: Limits, step: nat, call: ToolCall, check: Check, ghost run: Run, called: Run)
    returns (after: Run, flow: Flow)
    requires Healthy(w, l, run) && 0 <= l.searches && 0 <= l.webSearches
    requires IsCalled(w, step, EntryOf(w, call), run, called)
    requires check == CheckToolCall(l, EntryOf(w, call), History(run.trajectory)) != Allowed
    ensures Handles(w, l, step, call, run, after, flow)
    ensures Undisturbed(w) ==> !flow.Interrupted?
  {
    hide Over, Healthy, Summed, Unstopped, StatusOf, History, Identity, PointsTo, Open, Reports, Complete, Accounted;
    hide DistinctIdentities, Truthful, WithinBudgets, CheckToolCall, Executed, Going, AllGenuine, Announced, PollsFor;
    hide Gathered, Remembers, LastOk, Grown, TruthfulBody;
    var s := AgentStep(step, EntryOf(w, call), DenialOf(check), false, check);
    assert Genuine(w, l, run.trajectory, s);
    HealthyGoes(w, l, run);
    TruthfulMore(w.codec, called.messages, ToolReply(IdOf(step, call), Denied(check)), called.evidence);
    after, flow := Stepped(Replied(called, step, call, Denied(check)), s), Continue;
    DenialTakes(w, run, s, after);
    StepGoes(w, l, run, s, after);
    if w.closes(|after.events|) {
      return after, Interrupted;
    }
    StepHeals(w, l, run, s, after);
  }

  /** Call the tool and announce how it went. */
  method Execute(w: World, l: Limits, step: nat, call: ToolCall, ghost run: Run, called: Run)
    returns (after: Run, flow: Flow)
    requires Healthy(w, l, run) && 0 <= l.searches && 0 <= l.webSearches
    requires IsCalled(w, step, EntryOf(w, call), run, called)
    requires CheckToolCall(l, EntryOf(w, call), History(run.trajectory)) == Allowed
    ensures Handles(w, l, step, call, run, after, flow)
    ensures Undisturbed(w) ==> !flow.Interrupted?
  {
    hide Over, Healthy, Summed, Unstopped, StatusOf, History, Identity, PointsTo, Open, Reports, Complete, Accounted;
    hide DistinctIdentities, Truthful, WithinBudgets, CheckToolCall, Executed, Going, AllGenuine, Announced, PollsFor;
    hide Gathered, Remembers, LastOk, Grown, TruthfulBody;
    HealthyGoes(w, l, run);
    var entry := EntryOf(w, call);
    var result := w.execute(|called.trajectory|, entry);
    after := called.(executed := called.executed + [entry]);
    if result.None? {
      CallGoes(w, l, run, after, CallEvent(step, entry));
      Recorded(l, run.trajectory, run.executed, AgentStep(step, entry, DenialOf(Allowed), true, Allowed));
      return after, Interrupted;
    }
    var s := AgentStep(step, entry, result.value, true, Allowed);
    assert Genuine(w, l, run.trajectory, s);
    after := Stepped(after, s);
    StepGoes(w, l, run, s, after);
    if w.closes(|after.events|) {
      return after, Interrupted;
    }
    after, flow := Observe(w, l, step, call, s, run, after);
  }

  /** Give every new source a global index, valid across all retrieval calls. */
  method TakeEvidence(w: World, tool: string, o: Observation, run: Run) returns (after: Run, indices: seq<int>)
    ensures after == run.(evidence := Grown(w.codec, run.evidence, NewDocuments(tool, o)))
    ensures run.evidence <= after.evidence
    ensures DistinctIdentities(w.codec, run.evidence) ==> DistinctIdentities(w.codec, after.evidence)
    ensures TruthfulBody(w.codec, Compact(o, indices), after.evidence)
  {
    hide DistinctIdentities, PointsTo, Identity, Compact, TruthfulBody;
    indices := [];
    after := run;
    if o.documents.Some? || (tool == CACHE_LOOKUP && o.hit && o.evidence.Some?) {
      var evidence;
      evidence, indices := AppendDocuments(w.codec, run.evidence, NewDocuments(tool, o));
      after := run.(evidence := evidence);
    }
    CompactIsTruthful(w.codec, o, indices, after.evidence);
  }

  function Tracked(run: Run, tool: string, o: Observation): Run {
    run.(cacheHit := run.cacheHit || (tool == CACHE_LOOKUP && o.hit),
         assessment := if tool == EVALUATE && o.ok == Some(true) then Some(o) else run.assessment,
         financial := if tool == CALCULATE && o.ok == Some(true) then Some(o) else run.financial)
  }

  /** The step was announced, and its tool's answer is still to be taken in. */
  ghost predicate IsStepped(w: World, l: Limits, call: ToolCall, s: AgentStep, run: Run, stepped: Run) {
    && s.allowed && s.entry == EntryOf(w, call) && Genuine(w, l, run.trajectory, s) && Notes(run, s, stepped)
    && stepped == run.(trajectory := stepped.trajectory, events := stepped.events, executed := stepped.executed,
                       polls := run.polls + 1)
    && w.cancelled(run.polls) == GoOn && !w.closes(|run.events| + 1) && !w.closes(|run.events| + 2)
  }

  lemma RepliesReflect(s: AgentStep)
    requires s.allowed
    ensures AsksUser(s) ==> Reflects(s, ClarificationRecorded)
    ensures !AsksUser(s) ==> forall indices :: Reflects(s, Compact(s.observation, indices))
  {
  }

  /** Take in a tool's observation: evidence first, then the reply that cites it. */
  method Observe(w: World, l: Limits, step: nat, call: ToolCall, s: AgentStep, ghost run: Run, stepped: Run)
    returns (after: Run, flow: Flow)
    requires Healthy(w, l, run) && 0 <= l.searches && 0 <= l.webSearches
    requires IsStepped(w, l, call, s, run, stepped) && s.step == step
    ensures Handles(w, l, step, call, run, after, flow)
    ensures Undisturbed(w) ==> !flow.Interrupted?
  {
    hide Over, Healthy, Summed, Unstopped, StatusOf, History, Identity, PointsTo, Open, Reports, Complete, Accounted;
    hide DistinctIdentities, Truthful, WithinBudgets, CheckToolCall, Executed, Going, AllGenuine, Announced, PollsFor;
    hide Gathered, Remembers, LastOk, Grown, TruthfulBody;
    HealthyGoes(w, l, run);
    hide Genuine, Compact, Reflects, IdOf;
    RepliesReflect(s);
    var o := s.observation;
    var polled := w.cancelled(stepped.polls);
    after := stepped.(polls := stepped.polls + 1);
    StepGoes(w, l, run, s, after);
    if polled.PollInterrupted? {
      return after, Interrupted;
    }
    if polled.UserCancelled? {
      EndsNow(w, l, after, CancelledByUser, "", after.evidence, |after.trajectory|);
      after := Complete(after, CancelledByUser, "", after.evidence, |after.trajectory|);
      return after, Finished;
    }
    var indices;
    ghost var taken;
    after, indices := TakeEvidence(w, call.name, o, after);
    taken := after;
    after := Tracked(after, call.name, o);
    TruthfulLater(w.codec, after.messages, run.evidence, after.evidence);
    ObservationTakes(w, run, s, taken, after);
    if call.name == CLARIFY || o.awaitsUser {
      if w.asksSubstance && step < 2 && after.evidence == [] {
        TruthfulMore(w.codec, after.messages, ToolReply(IdOf(step, call), ClarificationRecorded), after.evidence);
        after, flow := Replied(after, step, call, ClarificationRecorded), Continue;
        StepHeals(w, l, run, s, after);
        return;
      }
      StepGoes(w, l, run, s, after);
      StepSums(w, run, s, after);
      EndsNow(w, l, after, AwaitingUserInput, Or(o.question, DEFAULT_QUESTION), [], step + 1);
      after := Complete(after, AwaitingUserInput, Or(o.question, DEFAULT_QUESTION), [], step + 1);
      return after, Finished;
    }
    TruthfulMore(w.codec, after.messages, ToolReply(IdOf(step, call), Compact(o, indices)), after.evidence);
    after, flow := Replied(after, step, call, Compact(o, indices)), Continue;
    StepHeals(w, l, run, s, after);
  }

  // ---- the loop ----

  /** One step of the loop: the model's answer, then the replies to its tool calls, or the reminder to search. */
  datatype Round = Round(calls: seq<ToolCall>, content: string, bodies: seq<Body>)

  predicate FullyAnswered(r: Round) { |r.bodies| == |r.calls| }

  /** One reply for each answered call, in call order. */
  function Replies(step: nat, r: Round): seq<Message>
    requires |r.bodies| <= |r.calls|
  {
    seq(|r.bodies|, i requires 0 <= i < |r.bodies| => ToolReply(IdOf(step, r.calls[i]), r.bodies[i]))
  }

  function Rendered(step: nat, r: Round): seq<Message>
    requires FullyAnswered(r)
  {
    [Assistant(step, r.calls, r.content)] + if r.calls == [] then [Nudge] else Replies(step, r)
  }

  predicate AllAnswered(rounds: seq<Round>) {
    forall r :: r in rounds ==> FullyAnswered(r)
  }

  /** The conversation after the given steps: every tool call has exactly one reply, in call order. */
  function Conversation(opening: seq<string>, rounds: seq<Round>): seq<Message>
    requires AllAnswered(rounds)
  {
    if rounds == [] then seq(|opening|, i requires 0 <= i < |opening| => Opening(opening[i]))
    else
      var n := |rounds| - 1;
      Conversation(opening, rounds[..n]) + Rendered(n, rounds[n])
  }

  /** The message at `i` asks for tool calls, and exactly its replies follow, in call order. */
  ghost predicate IsAnswered(m: seq<Message>, i: nat)
    requires i < |m| && m[i].Assistant?
  {
    var n := |m[i].calls|;
    && (forall j :: 0 <= j < n ==> IsReply(m, i, j))
    && (i + 1 + n < |m| ==> !m[i + 1 + n].ToolReply?)
  }

  predicate IsReply(m: seq<Message>, i: nat, j: nat)
    requires i < |m| && m[i].Assistant? && j < |m[i].calls|
  {
    && i + 1 + j < |m| && m[i + 1 + j].ToolReply?
    && m[i + 1 + j].id == IdOf(m[i].step, m[i].calls[j])
  }

  /** The reply stands among those of the asking message at `i`. */
  predicate Owns(m: seq<Message>, i: nat, reply: nat)
    requires i < |m|
  {
    m[i].Assistant? && i < reply <= i + |m[i].calls|
  }

  lemma AnsweredLater(before: seq<Message>, added: seq<Message>, i: nat)
    requires added != [] && added[0].Assistant?
    requires i < |before| && before[i].Assistant? && IsAnswered(before, i)
    ensures IsAnswered(before + added, i)
  {
    var m := before + added;
    assert m[i] == before[i];
    assert m[i].calls != [] ==> IsReply(before, i, |m[i].calls| - 1);
    forall j | 0 <= j < |m[i].calls|
      ensures IsReply(m, i, j)
    {
      assert IsReply(before, i, j);
    }
  }

  lemma RenderedIsAnswered(before: seq<Message>, step: nat, r: Round)
    requires FullyAnswered(r)
    ensures IsAnswered(before + Rendered(step, r), |before|)
  {
    var m := before + Rendered(step, r);
    assert m[|before|] == Assistant(step, r.calls, r.content);
    forall j | 0 <= j < |r.calls|
      ensures IsReply(m, |before|, j)
    {
      assert m[|before| + 1 + j] == Replies(step, r)[j];
    }
  }

  /** Every call has exactly one reply, directly after the asking message, and no reply is stray. */
  ghost predicate OneReplyPerCall(m: seq<Message>) {
    && (forall i: nat :: i < |m| && m[i].Assistant? ==> IsAnswered(m, i))
    && (forall i: nat :: i < |m| && m[i].ToolReply? ==> exists k: nat :: k < i && Owns(m, k, i))
  }

  lemma OneMoreAnswered(before: seq<Message>, step: nat, r: Round)
    requires OneReplyPerCall(before) && FullyAnswered(r)
    ensures OneReplyPerCall(before + Rendered(step, r))
  {
    var added := Rendered(step, r);
    var m := before + added;
    assert m[|before|] == added[0] == Assistant(step, r.calls, r.content);
    forall i: nat | i < |m| && m[i].Assistant?
      ensures IsAnswered(m, i)
    {
      if i < |before| {
        AnsweredLater(before, added, i);
      } else {
        RenderedIsAnswered(before, step, r);
      }
    }
    forall i: nat | i < |m| && m[i].ToolReply?
      ensures exists k: nat :: k < i && Owns(m, k, i)
    {
      if i < |before| {
        assert before[i].ToolReply?;
        var k: nat :| k < i && Owns(before, k, i);
        assert Owns(m, k, i);
      } else {
        assert Owns(m, |before|, i);
      }
    }
  }

  lemma {:induction false} EveryCallIsAnswered(opening: seq<string>, rounds: seq<Round>)
    requires AllAnswered(rounds)
    ensures OneReplyPerCall(Conversation(opening, rounds))
  {
    if rounds != [] {
      var n := |rounds| - 1;
      EveryCallIsAnswered(opening, rounds[..n]);
      OneMoreAnswered(Conversation(opening, rounds[..n]), n, rounds[n]);
    }
  }

  /** The steps that the calls of one answer led to, in order; not all of them when the run is cut. */
  predicate Carries(w: World, step: nat, calls: seq<ToolCall>, steps: seq<AgentStep>) {
    && |steps| <= |calls|
    && forall j :: 0 <= j < |steps| ==> steps[j].step == step && steps[j].entry == EntryOf(w, calls[j])
  }

  /** Each call of a finished round has its step, and its reply shows that step. */
  predicate Shows(w: World, step: nat, r: Round, steps: seq<AgentStep>): (b: bool)
    ensures b ==> FullyAnswered(r)
  {
    && |steps| == |r.calls| == |r.bodies| && Carries(w, step, r.calls, steps)
    && forall j :: 0 <= j < |steps| ==> Reflects(steps[j], r.bodies[j])
  }

  /** The steps are those of the rounds. */
  ghost predicate Matches(w: World, rounds: seq<Round>, trajectory: seq<AgentStep>) {
    if rounds == [] then trajectory == []
    else
      var n := |rounds| - 1;
      var m := |trajectory| - |rounds[n].calls|;
      0 <= m && Matches(w, rounds[..n], trajectory[..m]) && Shows(w, n, rounds[n], trajectory[m..])
  }

  lemma OneMoreMatch(w: World, rounds: seq<Round>, trajectory: seq<AgentStep>, r: Round, steps: seq<AgentStep>)
    requires Matches(w, rounds, trajectory) && Shows(w, |rounds|, r, steps)
    ensures Matches(w, rounds + [r], trajectory + steps)
  {
    var n, m := |rounds|, |trajectory|;
    assert (rounds + [r])[..n] == rounds;
    assert (trajectory + steps)[..m] == trajectory && (trajectory + steps)[m..] == steps;
    hide Shows;
  }

  /** What the model was given at one call, and what the run had come to by then. */
  datatype Prompt = Prompt(messages: seq<Message>, evidence: seq<Document>, trajectory: seq<AgentStep>)

  /** What the model said at its k-th call. */
  function Said(w: World, prompts: seq<Prompt>, k: nat): Response
    requires k < |prompts|
  {
    w.model(k, prompts[k].messages)
  }

  /** The rounds are what the model said, in order. */
  ghost predicate AllSpoken(w: World, rounds: seq<Round>, prompts: seq<Prompt>) {
    && |rounds| <= |prompts|
    && forall k :: 0 <= k < |rounds| ==> Said(w, prompts, k) == Reply(rounds[k].calls, rounds[k].content)
  }

  /** The calls that the model made last, if their round is not complete. */
  function OpenCalls(w: World, rounds: seq<Round>, prompts: seq<Prompt>): seq<ToolCall> {
    if |rounds| < |prompts| && Said(w, prompts, |rounds|).Reply? then Said(w, prompts, |rounds|).calls else []
  }

  /** All steps are those of the rounds, and then of the last calls. */
  ghost predicate Accounts(w: World, rounds: seq<Round>, prompts: seq<Prompt>, trajectory: seq<AgentStep>) {
    exists n: nat :: n <= |trajectory| && Matches(w, rounds, trajectory[..n])
                     && Carries(w, |rounds|, OpenCalls(w, rounds, prompts), trajectory[n..])
  }

  /** A draft was sent back only when it should rest on evidence, none was found, and a step was left. */
  ghost predicate SentBack(w: World, rounds: seq<Round>, prompts: seq<Prompt>, stepLimit: int) {
    && |rounds| <= |prompts|
    && forall k :: 0 <= k < |rounds| && rounds[k].calls == [] ==>
         && prompts[k].evidence == [] && Remembers(prompts[k].trajectory, false)
         && k + 1 < stepLimit && w.mustSearch(Strip(rounds[k].content))
  }

  /** Before each model call the conversation is complete, its replies show the steps made so far, and everything it
      cites is in the evidence that these brought. */
  ghost predicate Prompted(w: World, opening: seq<string>, rounds: seq<Round>, prompts: seq<Prompt>, run: Run) {
    && AllAnswered(rounds)
    && |rounds| <= |prompts| <= |rounds| + 1
    && (forall k :: 0 <= k < |prompts| ==> IsPrompt(w, opening, rounds, prompts[k], k, run))
    && (forall j, k :: 0 <= j < k < |prompts| ==> prompts[j].evidence <= prompts[k].evidence)
  }

  ghost predicate IsPrompt(w: World, opening: seq<string>, rounds: seq<Round>, p: Prompt, k: nat, run: Run)
    requires AllAnswered(rounds)
  {
    && k <= |rounds| && p.messages == Conversation(opening, rounds[..k])
    && Truthful(w.codec, p.messages, p.evidence)
    && Matches(w, rounds[..k], p.trajectory) && p.evidence == Gathered(w.codec, p.trajectory)
    && p.evidence <= run.evidence && p.trajectory <= run.trajectory
  }

  /** An index the model saw at any call leads, in the final result, to a document with the identity it was issued
      for: on every way out but the question to the user, which returns no evidence. */
  lemma IndicesStayValid(w: World, opening: seq<string>, rounds: seq<Round>, prompts: seq<Prompt>, run: Run,
                         k: nat, i: nat, j: nat)
    requires Prompted(w, opening, rounds, prompts, run) && Reports(run)
    requires run.events[|run.events| - 1].result.reason != AwaitingUserInput
    requires k < |prompts| && i < |prompts[k].messages| && prompts[k].messages[i].ToolReply?
    requires prompts[k].messages[i].body.Excerpts? && j < |prompts[k].messages[i].body.shown|
    ensures var shown := prompts[k].messages[i].body.shown[j];
            PointsTo(w.codec, run.events[|run.events| - 1].result.evidence, shown.citationIndex,
                     Identity(w.codec, shown.document))
  {
    hide Identity, Conversation;
    assert IsPrompt(w, opening, rounds, prompts[k], k, run);
    assert Truthful(w.codec, prompts[k].messages, prompts[k].evidence);
    assert TruthfulBody(w.codec, prompts[k].messages[i].body, prompts[k].evidence);
  }

  lemma PromptedLater(w: World, opening: seq<string>, rounds: seq<Round>, prompts: seq<Prompt>, run: Run, later: Run)
    requires Prompted(w, opening, rounds, prompts, run)
    requires run.evidence <= later.evidence && run.trajectory <= later.trajectory
    ensures Prompted(w, opening, rounds, prompts, later)
  {
    hide Conversation, Truthful, Matches, Gathered;
    assert forall k :: 0 <= k < |prompts| && IsPrompt(w, opening, rounds, prompts[k], k, run) ==>
                         IsPrompt(w, opening, rounds, prompts[k], k, later);
    hide IsPrompt;
  }

  lemma OneMorePrompt(w: World, opening: seq<string>, rounds: seq<Round>, prompts: seq<Prompt>, p: Prompt, run: Run)
    requires Prompted(w, opening, rounds, prompts, run) && |prompts| == |rounds| && p.evidence == run.evidence
    requires IsPrompt(w, opening, rounds, p, |rounds|, run)
    ensures Prompted(w, opening, rounds, prompts + [p], run)
  {
    hide Conversation, Truthful, Matches, Gathered;
    assert forall k :: 0 <= k < |prompts| && IsPrompt(w, opening, rounds, prompts[k], k, run) ==>
                         prompts[k].evidence <= p.evidence;
    hide IsPrompt;
  }

  lemma OneMoreRound(w: World, opening: seq<string>, rounds: seq<Round>, prompts: seq<Prompt>, run: Run, r: Round)
    requires Prompted(w, opening, rounds, prompts, run) && |prompts| == |rounds| + 1 && FullyAnswered(r)
    ensures Prompted(w, opening, rounds + [r], prompts, run) && AllAnswered(rounds + [r])
    ensures Conversation(opening, rounds + [r]) == Conversation(opening, rounds) + Rendered(|rounds|, r)
  {
    assert (rounds + [r])[..|rounds|] == rounds;
    hide Conversation, Truthful, Matches, Gathered;
    forall k | 0 <= k < |prompts|
      ensures IsPrompt(w, opening, rounds + [r], prompts[k], k, run)
    {
      assert IsPrompt(w, opening, rounds, prompts[k], k, run);
      assert (rounds + [r])[..k] == rounds[..k];
    }
    hide IsPrompt;
  }

  /** The tool calls of one model answer, in order. */
  method CallTools(w: World, l: Limits, step: nat, calls: seq<ToolCall>, content: string, run: Run)
    returns (after: Run, r: Round, flow: Flow, ghost steps: seq<AgentStep>)
    requires Healthy(w, l, run) && WithinBudgets(l, run.executed)
    requires 0 <= l.searches && 0 <= l.webSearches
    ensures run.evidence <= after.evidence && WithinBudgets(l, after.executed)
    ensures after.trajectory == run.trajectory + steps && Carries(w, step, calls, steps)
    ensures Spare(run) - 1 <= Spare(after) <= Spare(run) + 1
    ensures flow.Finished? ==> EndedByUser(after)
    ensures flow.Interrupted? ==> Cut(w, after)
    ensures !flow.Continue? ==> Over(w, l, after, flow)
    ensures Undisturbed(w) ==> !flow.Interrupted?
    ensures flow.Continue? ==>
              && Healthy(w, l, after) && Spare(after) == Spare(run)
              && r.calls == calls && r.content == content && Shows(w, step, r, steps)
              && after.messages == run.messages + Replies(step, r)
  {
    hide Healthy, Over, WithinBudgets, Grown, Reflects, PollsFor, EntryOf, Gathered, Brought;
    after, r, flow, steps := run, Round(calls, content, []), Continue, [];
    assert run.messages + Replies(step, r) == run.messages && run.trajectory + steps == run.trajectory;
    for i := 0 to |calls|
      invariant Healthy(w, l, after) && WithinBudgets(l, after.executed) && Spare(after) == Spare(run)
      invariant run.evidence <= after.evidence
      invariant flow.Continue? && r.calls == calls && r.content == content && |r.bodies| == |steps| == i
      invariant after.messages == run.messages + Replies(step, r)
      invariant after.trajectory == run.trajectory + steps && Carries(w, step, calls, steps)
      invariant forall j :: 0 <= j < i ==> Reflects(steps[j], r.bodies[j])
    {
      var before := after;
      after, flow := CallTool(w, l, step, calls[i], after);
      steps := NextSteps(w, step, calls, run.trajectory, steps, after.trajectory);
      if !flow.Continue? {
        return;
      }
      var m := after.messages[|before.messages|];
      assert after.messages == before.messages + [m];
      var longer := r.(bodies := r.bodies + [m.body]);
      assert Replies(step, longer) == Replies(step, r) + [m];
      r := longer;
    }
  }

  /** The steps after one more call. */
  lemma NextSteps(w: World, step: nat, calls: seq<ToolCall>, trajectory: seq<AgentStep>, steps: seq<AgentStep>,
                  after: seq<AgentStep>)
    returns (more: seq<AgentStep>)
    requires Carries(w, step, calls, steps) && |steps| < |calls|
    requires OneCall(w, step, calls[|steps|], trajectory + steps, after)
    ensures after == trajectory + more && Carries(w, step, calls, more) && steps <= more && |more| <= |steps| + 1
  {
    var before := trajectory + steps;
    if after == before {
      more := steps;
    } else {
      more := steps + [after[|before|]];
      assert after == before + [after[|before|]];
    }
  }

  /** A draft is sent back when it should rest on evidence, none was found, and a step is left. */
  predicate SendsBack(w: World, run: Run, answer: string, isLast: bool) {
    run.evidence == [] && !run.cacheHit && !isLast && w.mustSearch(answer)
  }

  /** A run that ends at a model call says what the model did: it failed, or this is its answer. */
  predicate Explained(w: World, step: nat, messages: seq<Message>, run: Run) {
    && run.events != [] && run.events[|run.events| - 1].AgentComplete?
    && var said, r := w.model(step, messages), FinalResult(run);
    && (r.reason == ModelError ==> said.Failed? && r.stepsTaken == step + 1)
    && (r.reason == AnswerComplete || r.reason == CacheHit ==>
          said.Reply? && said.calls == [] && r.stepsTaken == step + 1
          && r.answer == w.anchored(Strip(said.content), run.evidence))
    && r.reason != InsufficientEvidence
  }

  /** An answer without tool calls is a draft: send it back, or end with it. */
  method TakeDraft(w: World, l: Limits, step: nat, isLast: bool, content: string, ghost run: Run, heard: Run)
    returns (after: Run, r: Round, flow: Flow)
    requires Healthy(w, l, run) && w.cancelled(run.polls) == GoOn
    requires heard == run.(polls := run.polls + 1, messages := run.messages + [Assistant(step, [], content)])
    requires Truthful(w.codec, heard.messages, heard.evidence)
    ensures after == heard.(messages := after.messages, events := after.events) && Spare(after) == Spare(run) + 1
    ensures SendsBack(w, run, Strip(content), isLast) ==>
              && flow.Continue? && Healthy(w, l, after) && r == Round([], content, [])
              && after.messages == run.messages + Rendered(step, r)
    ensures !SendsBack(w, run, Strip(content), isLast) ==>
              && flow.Finished? && Over(w, l, after, flow)
              && EndsFor(after, if run.cacheHit then CacheHit else AnswerComplete)
              && FinalResult(after).stepsTaken == step + 1
              && FinalResult(after).answer == w.anchored(Strip(content), run.evidence)
              && Remembers(run.trajectory, run.cacheHit)
  {
    hide Healthy, Over, Going, Accounted, Summed, Complete, DistinctIdentities, Truthful, WithinBudgets, Strip;
    hide PollsFor;
    hide Remembers, AsksUser, Excused, Gathered, Announced, Open, EntryOf, Reflects, Rendered, Replies;
    HealthyGoes(w, l, run);
    PolledGoes(w, l, run, heard, heard.messages);
    var answer := Strip(content);
    if SendsBack(w, heard, answer, isLast) {
      TruthfulMore(w.codec, heard.messages, Nudge, heard.evidence);
      after := heard.(messages := heard.messages + [Nudge]);
      PolledGoes(w, l, run, after, after.messages);
      r, flow := Round([], content, []), Continue;
      NudgeRendered(run.messages, step, content);
    } else {
      var reason := if heard.cacheHit then CacheHit else AnswerComplete;
      EndsNow(w, l, heard, reason, w.anchored(answer, heard.evidence), heard.evidence, step + 1);
      after := Complete(heard, reason, w.anchored(answer, heard.evidence), heard.evidence, step + 1);
      r, flow := Round([], "", []), Finished;
    }
  }

  lemma NudgeRendered(before: seq<Message>, step: nat, content: string)
    ensures before + [Assistant(step, [], content)] + [Nudge] == before + Rendered(step, Round([], content, []))
  {
  }

  /** One step: ask the model, then finish, send the draft back, or carry out its tool calls. */
  method TakeStep(w: World, l: Limits, step: nat, isLast: bool, run: Run)
    returns (after: Run, asked: bool, r: Round, flow: Flow, ghost steps: seq<AgentStep>)
    requires Healthy(w, l, run) && WithinBudgets(l, run.executed)
    requires 0 <= l.searches && 0 <= l.webSearches
    ensures run.evidence <= after.evidence && WithinBudgets(l, after.executed)
    // the steps made are those that the model asked for
    ensures after.trajectory == run.trajectory + steps
    ensures if asked && w.model(step, run.messages).Reply?
            then Carries(w, step, w.model(step, run.messages).calls, steps) else steps == []
    ensures Spare(run) <= Spare(after) <= Spare(run) + 2 && (!asked ==> Spare(after) == Spare(run) + 1)
    ensures !flow.Continue? ==> Over(w, l, after, flow)
    ensures flow.Interrupted? ==> Cut(w, after) || (asked && w.model(step, run.messages).ModelInterrupted?)
    ensures Undisturbed(w) ==> !flow.Interrupted?
    // a round is the model's answer, with a reply for each of its calls that shows the step made for it
    ensures flow.Continue? ==>
              && asked && Healthy(w, l, after) && Spare(after) == Spare(run) + 1
              && w.model(step, run.messages) == Reply(r.calls, r.content) && Shows(w, step, r, steps)
              && after.messages == run.messages + Rendered(step, r)
              && (r.calls == [] ==> SendsBack(w, run, Strip(r.content), isLast))
    ensures flow.Finished? && (EndsFor(after, AnswerComplete) || EndsFor(after, CacheHit)) ==>
              Remembers(after.trajectory, after.cacheHit) && (EndsFor(after, CacheHit) <==> after.cacheHit)
    ensures flow.Finished? ==>
              Explained(w, step, run.messages, after) && (asked || EndsFor(after, CancelledByUser))
    ensures flow.Finished? && EndsFor(after, AnswerComplete) && after.evidence == [] ==>
              asked && var said := w.model(step, run.messages);
                       said.Reply? && (isLast || !w.mustSearch(Strip(said.content)))
  {
    hide Healthy, Over, Going, Accounted, Summed, Complete, DistinctIdentities, Truthful, WithinBudgets, Strip;
    hide PollsFor;
    hide Remembers, AsksUser, Excused, Gathered, Announced, Open, EntryOf, Reflects, Carries, Shows, Rendered, Replies;
    HealthyGoes(w, l, run);
    if w.model(step, run.messages).Reply? {
      NoSteps(w, step, w.model(step, run.messages).calls);
    }
    asked, r, steps := false, Round([], "", []), [];
    assert run.trajectory == run.trajectory + steps;
    var polled := w.cancelled(run.polls);
    after := run.(polls := run.polls + 1);
    PolledGoes(w, l, run, after, after.messages);
    if polled.PollInterrupted? {
      return after, asked, r, Interrupted, steps;
    }
    if polled.UserCancelled? {
      EndsNow(w, l, after, CancelledByUser, "", after.evidence, |after.trajectory|);
      after := Complete(after, CancelledByUser, "", after.evidence, |after.trajectory|);
      return after, asked, r, Finished, steps;
    }
    asked := true;
    var response := w.model(step, after.messages);
    if response.ModelInterrupted? {
      return after, asked, r, Interrupted, steps;
    }
    if response.Failed? {
      EndsNow(w, l, after, ModelError, "", after.evidence, step + 1);
      after := Complete(after, ModelError, "", after.evidence, step + 1);
      return after, asked, r, Finished, steps;
    }
    var said := Assistant(step, response.calls, response.content);
    TruthfulMore(w.codec, after.messages, said, after.evidence);
    after := after.(messages := after.messages + [said]);
    PolledGoes(w, l, run, after, after.messages);
    if response.calls == [] {
      after, r, flow := TakeDraft(w, l, step, isLast, response.content, run, after);
      return;
    }
    after, r, flow, steps := CallTools(w, l, step, response.calls, response.content, after);
    RoundRendered(run.messages, said, step, r, response.calls, response.content);
  }

  lemma RoundRendered(before: seq<Message>, said: Message, step: nat, r: Round, calls: seq<ToolCall>, content: string)
    requires said == Assistant(step, calls, content) && calls != []
    ensures r.calls == calls && r.content == content && FullyAnswered(r) ==>
              before + [said] + Replies(step, r) == before + Rendered(step, r)
  {
  }

  lemma NoSteps(w: World, step: nat, calls: seq<ToolCall>)
    ensures Carries(w, step, calls, []) && Shows(w, step, Round([], "", []), [])
    ensures forall content :: Shows(w, step, Round([], content, []), [])
  {
  }

  /** A poll, and messages that cite nothing new. */
  lemma PolledGoes(w: World, l: Limits, run: Run, after: Run, messages: seq<Message>)
    requires Healthy(w, l, run) && after == run.(polls := run.polls + 1, messages := messages)
    requires Truthful(w.codec, messages, run.evidence)
    ensures Going(w, l, after) && Over(w, l, after, Interrupted) && Spare(after) == Spare(run) + 1
    ensures w.cancelled(run.polls) == GoOn ==> Healthy(w, l, after)
    ensures Accounted(l, after.trajectory, after.executed) && Summed(w, after)
  {
    hide Announced, Gathered, AllGenuine, Truthful, DistinctIdentities, Accounted, LastOk, Excuses, Remembers, Open;
    hide PollsFor;
    HealthyGoes(w, l, run);
  }

  /** The whole run. */
  method Stream(w: World, maxSteps: int, maxSearchCalls: int, maxWebCalls: int, requested: Option<int>,
                opening: seq<string>)
    returns (run: Run, rounds: seq<Round>, prompts: seq<Prompt>, flow: Flow)
    // the model was asked at most so often, and given this conversation
    ensures Prompted(w, opening, rounds, prompts, run)
    ensures |prompts| <= Max(0, StepLimit(maxSteps, requested))
    // which is made of what it said, and of the tools' answers to what it asked for
    ensures AllSpoken(w, rounds, prompts) && SentBack(w, rounds, prompts, StepLimit(maxSteps, requested))
    ensures Accounts(w, rounds, prompts, run.trajectory)
    ensures AllGenuine(w, Controller(maxSteps, maxSearchCalls, maxWebCalls), run.trajectory)
    ensures var l := Controller(maxSteps, maxSearchCalls, maxWebCalls);
            WithinBudgets(l, run.executed)
            && (!flow.Interrupted? ==> Accounted(l, run.trajectory, run.executed))
    ensures Trails(w.codec, run) && (flow.Finished? && !EndsFor(run, CancelledByUser) ==> Summed(w, run))
    ensures DistinctIdentities(w.codec, run.evidence) && Truthful(w.codec, run.messages, run.evidence)
    // nobody stopped it before it ended, and it looked for the user's cancel before and after each act
    ensures NotBefore(w, run) && |prompts| - 1 <= Spare(run) <= |prompts| + 1
    ensures flow.Finished? ==> Reports(run) && EndsOnCancel(w, run) && EndsOnQuestion(w, run)
    ensures flow.Interrupted? ==>
              Open(run.events)
              && (Cut(w, run)
                  || (prompts != [] && w.model(|prompts| - 1, prompts[|prompts| - 1].messages).ModelInterrupted?))
    ensures !flow.Continue?
    // and the run gets to that one final event unless it is interrupted
    ensures Undisturbed(w) ==> flow.Finished?
    // the result says how the run ended
    ensures flow.Finished? ==>
              if EndsFor(run, InsufficientEvidence) then |rounds| == |prompts| == Max(0, StepLimit(maxSteps, requested))
              else EndsFor(run, CancelledByUser)
                   || (prompts != [] && Explained(w, |prompts| - 1, prompts[|prompts| - 1].messages, run))
    // an answer counts as cached exactly when an executed call hit the answer cache
    ensures flow.Finished? && (EndsFor(run, AnswerComplete) || EndsFor(run, CacheHit)) ==>
              Remembers(run.trajectory, run.cacheHit) && (EndsFor(run, CacheHit) <==> run.cacheHit)
    // a draft that must rest on evidence is not the answer before the last step
    ensures flow.Finished? && EndsFor(run, AnswerComplete) && run.evidence == [] ==>
              |prompts| == StepLimit(maxSteps, requested)
              || (prompts != [] && var said := w.model(|prompts| - 1, prompts[|prompts| - 1].messages);
                                   said.Reply? && !w.mustSearch(Strip(said.content)))
  {
    hide Proceeds, Healthy, Accounted, AllGenuine, Complete, DistinctIdentities, Truthful, WithinBudgets, Prompted;
    hide NotBefore, Strip, Trails, Accounts, Shows, Carries, Remembers, Open, Reports, AllAnswered, Summed, AllSpoken;
    hide SentBack, PollsFor, OpenCalls, EndsOnQuestion;
    var l := Controller(maxSteps, maxSearchCalls, maxWebCalls);
    var stepLimit := StepLimit(maxSteps, requested);
    run := Starting(opening);
    rounds, prompts := [], [];
    NothingYet(w, l, opening, stepLimit);
    var step := 0;
    while step < stepLimit
      invariant 0 <= step <= Max(0, stepLimit) && |rounds| == |prompts| == step
      invariant Proceeds(w, l, opening, rounds, prompts, run, stepLimit)
    {
      if !WithinStepBudget(l, step) {
        break;
      }
      ghost var before := run;
      ProceedsGoes(w, l, opening, rounds, prompts, run, stepLimit);
      var asked, r, p;
      ghost var steps;
      p := Prompt(run.messages, run.evidence, run.trajectory);
      run, asked, r, flow, steps := TakeStep(w, l, step, step >= stepLimit - 1, run);
      if !flow.Continue? {
        Stops(w, l, opening, rounds, prompts, before, run, stepLimit, asked, steps);
        prompts := prompts + if asked then [p] else [];
        return;
      }
      RoundDone(w, l, opening, rounds, prompts, before, run, stepLimit, r, steps);
      prompts := prompts + [p];
      rounds := rounds + [r];
      step := step + 1;
    }
    ProceedsGoes(w, l, opening, rounds, prompts, run, stepLimit);
    EndsNow(w, l, run, InsufficientEvidence, "", run.evidence, Max(1, stepLimit));
    ghost var last := run;
    run, flow := Complete(run, InsufficientEvidence, "", run.evidence, Max(1, stepLimit)), Finished;
    Stops(w, l, opening, rounds, prompts, last, run, stepLimit, false, []);
    assert prompts + [] == prompts;
  }

  function Starting(opening: seq<string>): Run {
    Run(Conversation(opening, []), [], [], false, None, None, [], 0, [])
  }

  /** A run between two steps. */
  ghost predicate Proceeds(w: World, l: Limits, opening: seq<string>, rounds: seq<Round>, prompts: seq<Prompt>,
                           run: Run, stepLimit: int)
  {
    && Healthy(w, l, run) && WithinBudgets(l, run.executed) && Spare(run) == |rounds| == |prompts|
    && Prompted(w, opening, rounds, prompts, run) && Matches(w, rounds, run.trajectory)
    && AllSpoken(w, rounds, prompts) && SentBack(w, rounds, prompts, stepLimit)
    && run.messages == Conversation(opening, rounds)
  }

  lemma ProceedsGoes(w: World, l: Limits, opening: seq<string>, rounds: seq<Round>, prompts: seq<Prompt>, run: Run,
                     stepLimit: int)
    requires Proceeds(w, l, opening, rounds, prompts, run, stepLimit)
    ensures Healthy(w, l, run) && WithinBudgets(l, run.executed) && Spare(run) == |rounds|
    ensures Going(w, l, run) && Over(w, l, run, Interrupted) && Accounted(l, run.trajectory, run.executed)
    ensures (run.events == [] || !w.closes(|run.events|)) && (0 < run.polls ==> w.cancelled(run.polls - 1) == GoOn)
    ensures Summed(w, run) && Remembers(run.trajectory, run.cacheHit)
  {
    hide Healthy, Prompted, WithinBudgets, Matches, AllSpoken, SentBack;
    HealthyGoes(w, l, run);
  }

  /** What a run that ends here has told. */
  lemma Stops(w: World, l: Limits, opening: seq<string>, rounds: seq<Round>, prompts: seq<Prompt>, before: Run,
              run: Run, stepLimit: int, asked: bool, steps: seq<AgentStep>)
    requires Proceeds(w, l, opening, rounds, prompts, before, stepLimit)
    requires before.evidence <= run.evidence && run.trajectory == before.trajectory + steps
    requires if asked && w.model(|rounds|, before.messages).Reply?
             then Carries(w, |rounds|, w.model(|rounds|, before.messages).calls, steps) else steps == []
    ensures var p := Prompt(before.messages, before.evidence, before.trajectory);
            var later := prompts + if asked then [p] else [];
            && Prompted(w, opening, rounds, later, run)
            && AllSpoken(w, rounds, later) && SentBack(w, rounds, later, stepLimit)
            && Accounts(w, rounds, later, run.trajectory)
  {
    var p := Prompt(before.messages, before.evidence, before.trajectory);
    var later := prompts + if asked then [p] else [];
    assert asked || later == prompts;
    hide Healthy, WithinBudgets, Prompted, Matches, Carries, AllAnswered, SentBack;
    NextPrompt(w, l, opening, rounds, prompts, before);
    PromptedLater(w, opening, rounds, later, before, run);
    SpokenLater(w, rounds, prompts, later, stepLimit);
    CutAccounts(w, rounds, later, before.trajectory, steps, run.trajectory);
  }

  lemma SpokenLater(w: World, rounds: seq<Round>, prompts: seq<Prompt>, longer: seq<Prompt>, stepLimit: int)
    requires AllSpoken(w, rounds, prompts) && SentBack(w, rounds, prompts, stepLimit) && prompts <= longer
    ensures AllSpoken(w, rounds, longer) && SentBack(w, rounds, longer, stepLimit)
  {
    hide Remembers, Strip;
  }

  /** One more round. */
  lemma RoundDone(w: World, l: Limits, opening: seq<string>, rounds: seq<Round>, prompts: seq<Prompt>, before: Run,
                  run: Run, stepLimit: int, r: Round, steps: seq<AgentStep>)
    requires Proceeds(w, l, opening, rounds, prompts, before, stepLimit)
    requires before.evidence <= run.evidence && run.trajectory == before.trajectory + steps
    requires Healthy(w, l, run) && WithinBudgets(l, run.executed) && Spare(run) == |rounds| + 1
    requires w.model(|rounds|, before.messages) == Reply(r.calls, r.content) && Shows(w, |rounds|, r, steps)
    requires run.messages == before.messages + Rendered(|rounds|, r)
    requires r.calls == [] ==> SendsBack(w, before, Strip(r.content), |rounds| >= stepLimit - 1)
    ensures var p := Prompt(before.messages, before.evidence, before.trajectory);
            Proceeds(w, l, opening, rounds + [r], prompts + [p], run, stepLimit)
  {
    hide Healthy, WithinBudgets, Prompted, Matches, Shows, AllAnswered, SentBack, AllSpoken, Strip, Conversation;
    hide Rendered, Remembers, Going, Over, Summed, Accounted, PollsFor;
    ProceedsGoes(w, l, opening, rounds, prompts, before, stepLimit);
    var p := Prompt(before.messages, before.evidence, before.trajectory);
    NextPrompt(w, l, opening, rounds, prompts, before);
    PromptedLater(w, opening, rounds, prompts + [p], before, run);
    OneMoreRound(w, opening, rounds, prompts + [p], run, r);
    OneMoreMatch(w, rounds, before.trajectory, r, steps);
    OneMoreSpoken(w, rounds, prompts, p, r, stepLimit);
  }

  /** What the model is given next. */
  lemma NextPrompt(w: World, l: Limits, opening: seq<string>, rounds: seq<Round>, prompts: seq<Prompt>, run: Run)
    requires Healthy(w, l, run) && Prompted(w, opening, rounds, prompts, run) && |prompts| == |rounds|
    requires Matches(w, rounds, run.trajectory) && run.messages == Conversation(opening, rounds)
    ensures Prompted(w, opening, rounds, prompts + [Prompt(run.messages, run.evidence, run.trajectory)], run)
  {
    var p := Prompt(run.messages, run.evidence, run.trajectory);
    assert rounds[..|rounds|] == rounds;
    hide Conversation, Truthful, Matches, Gathered, Accounted, AllGenuine, Unstopped, Open, DistinctIdentities;
    assert IsPrompt(w, opening, rounds, p, |rounds|, run);
    hide IsPrompt, Prompted;
    OneMorePrompt(w, opening, rounds, prompts, p, run);
  }

  lemma CutAccounts(w: World, rounds: seq<Round>, prompts: seq<Prompt>, whole: seq<AgentStep>, part: seq<AgentStep>,
                    trajectory: seq<AgentStep>)
    requires Matches(w, rounds, whole) && trajectory == whole + part
    requires part == [] || Carries(w, |rounds|, OpenCalls(w, rounds, prompts), part)
    ensures Accounts(w, rounds, prompts, trajectory)
  {
    assert trajectory[..|whole|] == whole && trajectory[|whole|..] == part;
    hide Matches;
  }

  lemma OneMoreSpoken(w: World, rounds: seq<Round>, prompts: seq<Prompt>, p: Prompt, r: Round, stepLimit: int)
    requires AllSpoken(w, rounds, prompts) && SentBack(w, rounds, prompts, stepLimit) && |prompts| == |rounds|
    requires w.model(|rounds|, p.messages) == Reply(r.calls, r.content)
    requires r.calls == [] ==>
               && p.evidence == [] && Remembers(p.trajectory, false)
               && |rounds| + 1 < stepLimit && w.mustSearch(Strip(r.content))
    ensures AllSpoken(w, rounds + [r], prompts + [p]) && SentBack(w, rounds + [r], prompts + [p], stepLimit)
  {
    hide Remembers, Strip;
  }

  lemma NothingYet(w: World, l: Limits, opening: seq<string>, stepLimit: int)
    requires 0 <= l.searches && 0 <= l.webSearches
    ensures Proceeds(w, l, opening, [], [], Starting(opening), stepLimit)
  {
  }
}
