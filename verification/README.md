# Verified model of the Vietnamese legal assistant's core

A Dafny model of the parts of the assistant where correctness depends on interleavings, on callers that may do anything,
or on unbounded input, with proofs over every input, every run or every reachable state.
`dafny verify dfyconfig.toml` checks the whole project.

| file | what it models |
|---|---|
| `Admission.dfy` | the Redis sorted set of admission leases as a transition system: requests of any clients in any order |
| `AdmissionController.dfy` | the same set changed in place by the scripts, and the worker's acquire, refresh, release and heartbeat loops |
| `ChatAdmission.dfy` | the chat endpoint's event generator: lease, heartbeat, relayed events, release; and many of them on one lease set |
| `TurnStream.dfy` | the durable answer stream racing with cancel, disconnect and store failures, together with the turn store |
| `AnswerChunks.dfy` | cutting an answer into display-sized chunks |
| `Planner.dfy`, `Evidence.dfy`, `AgentLoop.dfy` | the agent loop: budgets and loop detection, the evidence list, the ReAct run |
| `OutputGate.dfy` | the output gate: citation check, claim verifier, legal critic, repair |
| `SseFraming.dfy` | incremental splitting of server-sent events in the browser |
| `LegalAnchors.dfy` | the parser and the printer of legal anchors |
| `RankFusion.dfy`, `Ndcg.dfy` | reciprocal rank fusion, and nDCG of the evaluation |
| `KeyPool.dfy` | the pool of API keys with pacing and cooldowns |
| `OwnerRename.dfy` | the audit of the owner migration and its sequential rename |
| `IncomeTax.dfy` | progressive personal income tax |
| `Common.dfy` | options, lists without repeats, joined texts, set sizes, Python's whitespace |

Language models, tools, verifier, critic, hashes, clocks, other workers, the network and cancellation are arbitrary: they
are function-valued fields of a `World`, asked at numbered suspension points, so a theorem about a method holds for every
behaviour of them. Floats are exact reals.

Where the code does not meet what its documentation or design promises, the exact condition under which it does is proved
for all inputs (named first in each line), and an input for which it fails is given, unless the condition names one by
itself:

- A turn identifier that is sent again makes the stream report `response_complete` for a turn that is not stored complete,
  exactly when the turn had failed or was superseded before (`TurnStream.Stream`; input: `ResendFailedTurn`).
- A second terminal event is emitted exactly when an ordinary exception is thrown into the stream at the yield of the first
  (`OneTerminalExactly`; input: `ThrowAtTheEnd`).
- The chunks of an answer, said to preserve its exact text, do so exactly when the answer does not begin with whitespace
  (`PreservedExactly`, `SplitForStream`).
- The gate delivers a draft that neither verifier nor critic supports exactly when the verifier does not support it and the
  critic, without condemning it, returns a correction that comes out as the draft itself (`CheckOutput`; input:
  `DeliverUnchecked`).
- An unexpired lease can be lost, and the limit exceeded, exactly when the longest lifetime in use is longer than the key's
  expiry that the shortest one sets (`CompatibleExactly`; input: `MixedLifetimesLoseLeases`).
- The migration's audit overlooks a merge exactly when an owner is about to be quarantined and its quarantine identifier is
  a user already (`InjectiveExactly`; input: `UnreportedMerge`).
- A canonical anchor without document number survives printing and parsing exactly when it is an article with its clause
  and point, or an appendix alone (`RoundTripExactly`); with a document number none does (`DocumentNumberIsLost`).
- A one-line payload is handed on unchanged exactly when it is neither blank nor surrounded by whitespace
  (`PayloadUnchangedExactly`).
- The rotation of keys breaks exactly when a key whose turn comes has a stamp as late as the first key's newest one
  (`RotatesExactly`; input: `EqualStampsBreakRotation`, for every interval).

## Model

| member | source | states |
|---|---|---|
| Admission.NeverOverLimit | src/vietnam_legal_agent/infra/admission.py:15-32 | After any sequence of acquire, refresh and release requests of any clients, with any clocks, lifetimes and key expiries, the stored set has at most `limit` members if every acquire carries at most that limit; a revived expired member still counts. |
| Admission.LiveLeasesWithinLimit | src/vietnam_legal_agent/infra/admission.py:15-32 | Hence at most `limit` leases are unexpired at any time. |
| Admission.OnlyReleaseRemoves | src/vietnam_legal_agent/infra/admission.py:16-31 | As long as the key outlives its members, which `KeyOutlivesMembers` shows of every run with one clock and compatible lifetimes, an unexpired lease stays in the set through every request but its own release: neither another worker's purge nor the expiry of the whole key takes it, and its own refresh succeeds. |
| Admission.KeyOutlivesMembers | src/vietnam_legal_agent/infra/admission.py:20-30 | In every run on one clock with lifetimes between lo and hi, 0 < lo <= hi <= ceil(2 lo), the key's expiry, twice the lifetime rounded up after each write, is no earlier than any member's score. |
| Admission.HeartbeatNeverFails | src/vietnam_legal_agent/infra/admission.py:100-131 | In every such run, a holder each of whose refreshes is executed before its lease runs out is in the set from the grant through the last refresh, and no refresh is refused. |
| Admission.HoldersWithinLimit | src/vietnam_legal_agent/infra/admission.py:15-32 | In every such run, the clients that were admitted, were not released since, and whose last granted request is younger than its lifetime number at most the limit. |
| Admission.CompatibleExactly | src/vietnam_legal_agent/infra/admission.py:15-32 | With lifetimes between lo and hi, no run on one clock lets more clients work than the limit exactly when hi <= ceil(2 lo); and the same is exact for no run losing an unexpired lease but by its own release. |
| Admission.OneLifetimeSuffices | src/vietnam_legal_agent/infra/admission.py:15-32 | With one lifetime for everybody, as it is configured, no run overbooks and none loses a lease. |
| Admission.MixedLifetimesLoseLeases | src/vietnam_legal_agent/infra/admission.py:21-30 | For every shortest lifetime lo and every longest one beyond ceil(2 lo), a run of four acquires: an unexpired lease is lost to the key expiry that the shorter one sets, its refresh is refused, and three clients work under a limit of two. |
| AdmissionController.LeaseSet.EvalAcquire | src/vietnam_legal_agent/infra/admission.py:15-23 | The acquire script, command by command on the set in place, is one step of the transition system: new state and reply. |
| AdmissionController.LeaseSet.EvalRefresh | src/vietnam_legal_agent/infra/admission.py:25-32 | So is the refresh script, which tests membership and not expiry. |
| AdmissionController.RedisAdmissionController.Acquire | src/vietnam_legal_agent/infra/admission.py:55-98 | Bad arguments are rejected exactly and change nothing; it reports unavailability exactly when the last request was not answered, every earlier one being answered; a place free at the first attempt is taken; a grant leaves the token in the set; a refusal comes only after the waiting time, with the set full at the last attempt, and leaves nothing behind; a lost lease needs a lost reply; attempts are bounded by the waiting time; the limit holds throughout. |
| AdmissionController.RedisAdmissionController.Refresh | src/vietnam_legal_agent/infra/admission.py:100-116 | A refresh is one step of the transition system after the others' requests; it is answered exactly when Redis answered, and then reports membership truthfully; it never brings back a token that was gone. |
| AdmissionController.RedisAdmissionController.Release | src/vietnam_legal_agent/infra/admission.py:118-123 | A release is one step of the transition system; it succeeds exactly when it was answered, and then the token is gone; the limit holds. |
| AdmissionController.RedisAdmissionController.Heartbeat | src/vietnam_legal_agent/infra/admission.py:125-131 | A non-positive interval fails before any request; it fails exactly when its last request was not answered; a heartbeat that reports a lost lease tells the truth; one that survives has refreshed at every interval and still holds the lease; with compatible lifetimes, one whose refreshes are answered before the lease runs out always survives, whatever the other workers do. |
| ChatAdmission.EventGenerator | backend/api/routes/chat.py:124-268 | The log of suspensions and the outcome are fixed by the environment: events are relayed until the heartbeat is found ended, the client gone, an exception raised, or no event left; then the client is told what was raised, the lease is given back, and the outcome is that of the handlers or of the release. So, unless failing open, events are relayed only under a lease, in order, each after finding the heartbeat alive and the client connected; with the positive interval that the configuration demands the lease is given back exactly once, as the last act, on every way out (for an arbitrary interval: exactly unless the heartbeat task has ended with a ValueError); a refused client is told why; without faults every event arrives. |
| ChatAdmission.Admit | backend/api/routes/chat.py:133-162 | Without a lease the generator goes on only when configured to fail open. |
| ChatAdmission.InFlightWithinLimit | backend/api/routes/chat.py:124-268 | Any number of generators on one lease set: if tokens are unique and a lease is released only by its generator when that gives it back, the generators that were granted a lease, have not given it back, and whose lease has not run out number at most the limit, whether or not they have begun to stream. |
| TurnStream.Stream | src/vietnam_legal_agent/agent/v4.py:578-827 | For every exception, cancellation or close at every suspension, the trace having one item for each. Every item follows from those before it: events are numbered 1, 2, 3, ... and come in the order of the script, each chunk directly after a poll that found no cancel; partial content sent to the store is what was emitted; after an exception the turn is only ended, and only an ordinary one is reported. The stored turn is what the store made of these calls and of the user's cancels. After the terminal event nothing follows but for the fallback error; a begun turn gets at least one finish_turn; a stopped event means a stored stopped turn and a complete event a stored complete one, with that text unless the turn had ended before its identifier was sent again, exactly unless it had failed or was superseded; a stream that ends by itself has said so; a cancelled task or closed consumer surfaces, unless a failure of recording the run has replaced it. If nothing is raised, and with cancels at any time, it ends normally after the whole preamble, with a stopped event carrying the emitted chunks exactly when the stored status is stopped, and with the complete answer otherwise; a failing workflow ends with its error event and a turn stored failed, or stopped exactly if the cancel landed before. |
| TurnStream.CancelWinsExactly | src/vietnam_legal_agent/infra/persistence.py:667-735 | An open turn ends stopped exactly when the user's cancel lands no later than the first finish_turn that is carried out, however the run goes on; else with the status of that call. |
| TurnStream.OneTerminalExactly | src/vietnam_legal_agent/agent/v4.py:785-821 | The terminal event is the only one and the last event exactly when no ordinary exception is thrown by the consumer at its yield. |
| TurnStream.ThrowAtTheEnd | src/vietnam_legal_agent/agent/v4.py:602-821 | A world in which the stream reports a conflict, an exception is thrown at that yield, and the fallback error follows. |
| TurnStream.ResendFailedTurn | src/vietnam_legal_agent/infra/persistence.py:519-530 | Sending a failed turn's identifier again, without any fault, yields a complete event for a turn stored as failed. |
| TurnStream.FinishTurn | src/vietnam_legal_agent/infra/persistence.py:667-735 | finish_turn answers with the status in force: stopped if the turn was, or if the cancel of an open turn lands at this very call, else the status asked for if the turn was open, else the old one; it leaves ended turns as they are, however the call fails. |
| TurnStream.Persist | src/vietnam_legal_agent/agent/v4.py:521-576 | After persisting without an exception, the event that will be chosen agrees with the stored turn, also when the cancel landed between the last poll and finish_turn; what was raised goes on upwards, unless recording the run failed after it. |
| TurnStream.Deliver | src/vietnam_legal_agent/agent/v4.py:697-749 | Chunks are emitted until a poll finds the cancel; if none does, the emitted text is the answer without leading whitespace; a refused chunk size is an ordinary error. |
| TurnStream.Handle | src/vietnam_legal_agent/agent/v4.py:799-821 | The outer handlers leave a trace in which nothing follows the terminal event, but for the fallback error. |
| TurnStream.Finalize | src/vietnam_legal_agent/agent/v4.py:822-827 | The finally block sees to it that a begun turn had its finish_turn. |
| AnswerChunks.SplitForStream | src/vietnam_legal_agent/agent/runtime/presentation.py:37-68 | Chunks are non-empty, at most the given size, and concatenate to the answer without leading whitespace, so to the answer itself exactly when it does not begin with whitespace; a ValueError exactly for a non-positive size and an answer that is not empty, which yields no chunks for any size. |
| AnswerChunks.PreservedExactly | src/vietnam_legal_agent/agent/runtime/presentation.py:40-53 | The exact text is preserved exactly when the answer is empty or does not begin with whitespace in Python's sense. |
| Planner.PassesExactly | src/vietnam_legal_agent/agent/planner.py:100-135 | A search passes the check exactly when it repeats no earlier call, fewer than the allowed number of searches precede it, and for the web fewer web searches, denied ones included. |
| Planner.ExecutionsStayWithinBudgets | src/vietnam_legal_agent/agent/planner.py:100-135 | Over every run, executed calls never repeat and stay within both budgets. |
| Planner.DenialsArePermanent | src/vietnam_legal_agent/agent/planner.py:107-135 | A denied call is never executed later, and once a budget is spent no call it covers is. |
| Planner.RepetitionsSpendTheBudget | src/vietnam_legal_agent/agent/planner.py:116-125 | Repetitions use up the search budget without searching. |
| Evidence.SameIdentityExactly | src/vietnam_legal_agent/agent/agent_loop.py:202-219 | Documents whose source names hold no colon share an identity exactly when they share source and key (address, identifier or content hash). |
| Evidence.AppendDocuments | src/vietnam_legal_agent/agent/agent_loop.py:222-241 | The evidence grows only at its end, by each new identity once in order of arrival; identities stay distinct; every returned index points at a document with the identity asked for. |
| AgentLoop.Stream | src/vietnam_legal_agent/agent/agent_loop.py:365-704 | For every model, tool and cancellation. The conversation of each model call is made of what the model said at the earlier calls, in order, with one reply for each of its calls that shows the step made for it; all steps are those the model asked for, in order; each shows the controller's decision and, when allowed, the tool's own answer; evidence, cache flag and payloads are what these observations bring, and citations at each call point into the evidence of that moment. At most `step_limit` model calls; executed calls stay within the budgets; a draft is sent back only when it must rest on evidence, none was found and a step is left. Every step is announced and reported in order; the user's cancel is looked for before each model call, before each tool call and after it, and the run ends cancelled exactly when the last look found it. Exactly one final event, as the last, whenever the consumer does not close the stream, no poll and no tool raises and the model call is not cancelled; otherwise it is cut at one of these, without a final event. The result says how the run ended. |
| AgentLoop.EveryCallIsAnswered | src/vietnam_legal_agent/agent/agent_loop.py:494-682 | In a conversation of such rounds, which `Stream` ties to the model's answers, every tool call has exactly one reply, directly after the asking message and in call order, and no reply is stray. |
| AgentLoop.IndicesStayValid | src/vietnam_legal_agent/agent/agent_loop.py:584-682 | A citation index shown to the model at any call points, in the final result, at a document with the identity it was issued for, on every way out but the question to the user. |
| AgentLoop.CallTool | src/vietnam_legal_agent/agent/agent_loop.py:494-682 | One tool call adds one step, with the controller's decision and the tool's own answer or the denial, and one reply that shows it: the denial, or at most four excerpts under valid global indices, or the excuse from a question; evidence grows by the observation's documents. It stops the run only on the user's cancel, a question to the user, a consumer that closes, a poll or a tool that raises. |
| OutputGate.VerifiedExactly | src/vietnam_legal_agent/domain/verification.py:31-62 | A claim check counts as verified exactly when the verifier said verified, supported the claims, and gave neither a fallback nor a missing-evidence reason. |
| OutputGate.CheckOutput | src/vietnam_legal_agent/agent/guardrails.py:67-448 | With the circuit breaker under the legal corpus and a draft that cites: accepted text is claim-verified, or the draft as critic-approved, or delivered without either, which happens exactly when the verifier replies without support, the critic's reply is not condemning, and its correction comes out as the draft; its citations are those of the accepted text; at most three verifier and two critic calls; a verified draft that the critic does not condemn is always accepted; an uncited draft is accepted without checks. |
| OutputGate.CheckCorrection | src/vietnam_legal_agent/agent/guardrails.py:300-448 | A correction is delivered only if the verifier supports its exact text, and then it is; otherwise a verified draft is kept, or one repair is tried and checked in the same way. |
| OutputGate.DeliverUnchecked | src/vietnam_legal_agent/agent/guardrails.py:286-300 | Collaborators for which a draft that the verifier refuses and the critic does not approve is delivered. |
| SseFraming.StreamEvents | frontend-react/src/utils/sseParser.ts:49-70 | The read loop with its buffer yields the events of the frames of the whole text. |
| SseFraming.SplitAppend | frontend-react/src/utils/sseParser.ts:49-70 | Splitting a longer text keeps all complete frames and goes on from the open one. |
| SseFraming.ChunkInvariant | frontend-react/src/utils/sseParser.ts:49-70 | However one text is cut into chunks, the same events are yielded. |
| SseFraming.FrameReaderIsLineReader | frontend-react/src/utils/sseParser.ts:127-153 | Splitting into frames and parsing each equals reading the text line by line as section 9.2.6 of the WHATWG HTML Standard does for data fields, but for bare-CR line ends and for the open frame at the end, which is read too. |
| SseFraming.PrintedEventsComeBack | frontend-react/src/utils/sseParser.ts:127-153 | Payload lines without CR or LF, printed with either line end and with comments between, come back in order, joined by newlines and trimmed. |
| SseFraming.PayloadUnchangedExactly | frontend-react/src/utils/sseParser.ts:127-153 | A one-line payload reaches the JSON decoder unchanged exactly when it is not blank and has no surrounding whitespace. |
| LegalAnchors.ExplicitAnchors | src/vietnam_legal_agent/domain/legal.py:114-178 | The in-place scanning loops compute the anchors of the specification, for every text. |
| LegalAnchors.ParseRequiredAnchors | src/vietnam_legal_agent/domain/legal.py:181-208 | The loop with its `seen` set returns every anchor whose key is new, in order, and the texts that hold no anchor. |
| LegalAnchors.RoundTripExactly | src/vietnam_legal_agent/domain/legal.py:89-101 | An anchor in canonical form without document number and title is parsed back from its key exactly when it is an article with optional clause and point, or an appendix alone. |
| LegalAnchors.FirstAnchor | src/vietnam_legal_agent/domain/legal.py:114-178 | The first anchor of a key with an article is that article with its clause and point, also when an appendix follows. |
| LegalAnchors.DocumentNumberIsLost | src/vietnam_legal_agent/domain/legal.py:28-34 | No anchor parsed from the key of an anchor with a document number carries one, because the key drops the instrument word. |
| LegalAnchors.KeysDiffer | src/vietnam_legal_agent/domain/legal.py:89-101 | Such anchors have different keys. |
| LegalAnchors.ListRoundTrip | src/vietnam_legal_agent/domain/legal.py:181-208 | Printing a list of such anchors and parsing the keys gives back the list without repeats, and nothing is reported invalid. |
| RankFusion.Fuse | src/vietnam_legal_agent/agent/tool_registry.py:164-199 | The nested loops produce a fusion: each key once, its score the sum of 1/(61+rank) over all entries, its placements complete, the order by descending score, the best ones selected; it fails exactly when every query failed. |
| RankFusion.CountList | src/vietnam_legal_agent/agent/tool_registry.py:175-191 | Counting one result list keeps scores, placements and order those of the lists read so far. |
| RankFusion.SortIsStable | src/vietnam_legal_agent/agent/tool_registry.py:192-199 | Keys with equal scores stay in order of insertion. |
| RankFusion.FusionRespectsDominance | src/vietnam_legal_agent/agent/tool_registry.py:175-199 | With lists free of repeats, a document ranked before b in every list that contains b precedes b in the fusion and is selected whenever b is. |
| RankFusion.FusionConservesScore | src/vietnam_legal_agent/agent/tool_registry.py:175-199 | The scores of all keys sum to 1/(61+rank) over all list entries. |
| Ndcg.UniqueArticleRanking | scripts/evaluate_v3_retrieval.py:39-45 | The loops build the articles of the documents by first occurrence, without repeats. |
| Ndcg.RankedByFirstMention | scripts/evaluate_v3_retrieval.py:39-45 | An article ranked earlier was mentioned before every mention of a later one. |
| Ndcg.Rearrangement | scripts/evaluate_v3_retrieval.py:59-69 | For decreasing positive discounts, the hits of any positions are worth at most as many leading positions, with equality exactly when they are the leading ones. |
| Ndcg.NdcgIsRatio | scripts/evaluate_v3_retrieval.py:59-69 | nDCG lies in [0, 1] and is 1 exactly when the first min(k, number relevant) positions are all relevant. |
| Ndcg.EvaluateNdcg | scripts/evaluate_v3_retrieval.py:39-69 | So does the value that the evaluator computes from its own ranking. |
| KeyPool.GeminiKeyManager.AcquireKey | src/vietnam_legal_agent/infra/llm_instances.py:87-128 | A grant goes to the chosen key, no earlier than its last stamp plus the interval, and records stamp and counters; without keys nothing changes. |
| KeyPool.GeminiKeyManager.MarkRateLimited | src/vietnam_legal_agent/infra/llm_instances.py:130-150 | A rate limit cools the key for the model, or as a whole, from the present, for the given penalty or else the manager's cooldown, and is counted. |
| KeyPool.ChoiceIsBest | src/vietnam_legal_agent/infra/llm_instances.py:91-117 | The chosen key is the least recently used available one, or with none available the first to leave its cooldown. |
| KeyPool.GrantsAreSpaced | src/vietnam_legal_agent/infra/llm_instances.py:119-124 | Over every run, two grants of one key are at least the interval apart. |
| KeyPool.WindowBound | src/vietnam_legal_agent/infra/llm_instances.py:119-124 | Any window of length w holds at most w / interval + 1 grants of one key. |
| KeyPool.ConsecutiveGrantsDiffer | src/vietnam_legal_agent/infra/llm_instances.py:116-124 | From the start, with nothing rate-limited and strictly increasing positive stamps, any n consecutive grants over n keys use n different keys. |
| KeyPool.RotatesExactly | src/vietnam_legal_agent/infra/llm_instances.py:116-124 | From the start, with nothing rate-limited and a clock that never runs backwards, any n consecutive grants over n keys use n different keys exactly when every key, when its turn comes, has an older stamp than the first key's latest. |
| KeyPool.EqualStampsBreakRotation | src/vietnam_legal_agent/infra/llm_instances.py:116-117 | For every interval, a run of two keys in which one of them is granted twice in a row. |
| OwnerRename.Audit | scripts/migrate_owners.py:51-85 | The audit reports who is mapped and who is quarantined, and no collision exactly when no two users share a target and no target is another user. |
| OwnerRename.OwnerDatabase.Apply | scripts/migrate_owners.py:88-126 | The rename happens exactly when there is no collision, and then all four tables and the users are those of the sequential plan. |
| OwnerRename.PlanRenamesAtOnce | scripts/migrate_owners.py:107-124 | Without collisions the sequential rename equals one simultaneous renaming. |
| OwnerRename.InjectiveExactly | scripts/migrate_owners.py:66-77 | That renaming merges nobody exactly when no user is about to be quarantined under an identifier that is a user already. |
| OwnerRename.NoTwinsSuffice | scripts/migrate_owners.py:66-77 | It is enough that no user exists under both an id and its quarantine id. |
| OwnerRename.SharingIsKept | scripts/migrate_owners.py:111-124 | Then row counts are kept, and two rows of any of the four tables share an owner after exactly when they did before. |
| OwnerRename.UnreportedMerge | scripts/migrate_owners.py:66-77 | Some database passes the audit and merges two owners. |
| OwnerRename.UsersAreRenamed | scripts/migrate_owners.py:111-124 | The users afterwards are the renamed users. |
| OwnerRename.RenameIsIdempotent | tests/test_owner_migration.py:45-47 | With a mapping keyed by legacy owners, a second audit finds nothing to map or quarantine. |
| IncomeTax.CalculateTax | src/vietnam_legal_agent/domain/legal_rules.py:553-585 | The seven guarded steps equal the recursive sum over the bracket table and the maximum of seven affine functions. |
| IncomeTax.TieredIsEnvelope | src/vietnam_legal_agent/domain/legal_rules.py:561-585 | For every progressive table the tiered sum is the upper envelope of its lines. |
| IncomeTax.StatutoryTaxShape | src/vietnam_legal_agent/domain/legal_rules.py:561-585 | Tax is monotone and convex in assessable income, with slope between 5 % and 35 %. |
| IncomeTax.NetIncomeStrictlyIncreasing | src/vietnam_legal_agent/domain/legal_rules.py:553-585 | Income after tax is strictly increasing in gross income and keeps at least 65 % of any rise. |

## Left out

- AgentLoop.Stream: assumes that tool observations hold documents as dictionaries and can be written as JSON, and that `is_cancelled` raises nothing but a cancellation.
- TurnStream.Stream: says nothing of whether an `error` event agrees with the stored turn (a turn can be stored complete before the bookkeeping fails), and takes the user's cancel as the only other writer of the turn.
- TurnStream.FinishTurn: leaves out metadata, conversation summaries and the superseding of a replayed message.
- AdmissionController.RedisAdmissionController.Acquire: leaves out the connection, the 0.2 s timeout and the mapping of errors; a request is answered, never sent, or loses its reply.
- AdmissionController.RedisAdmissionController.Heartbeat: its task is cancelled between two refreshes, not in the middle of one.
- ChatAdmission.EventGenerator: leaves out metrics and the readiness check; the error events are only named.
- OutputGate.CheckOutput: takes citation checker, placeholder removal and anchoring as arbitrary functions that do not raise; the user-facing texts and the feedback given to the critic are not modelled; drafts without a citation are accepted without semantic checks, as the code does.
- Evidence.AppendDocuments: reads identifying fields as strings, an absent and an empty field being the same.
- LegalAnchors.ExplicitAnchors: titles of named instruments are an arbitrary function that finds nothing in a text without an instrument name; digits are ASCII, word characters are ASCII and the Latin blocks that Vietnamese uses, case folding covers ASCII and Vietnamese letters.
- SseFraming.StreamEvents: starts from decoded text; byte decoding, aborting and the fields other than `data` are not modelled, and neither are a byte order mark and bare-CR line ends.
- RankFusion.Fuse: starts from the results of the queries; the choice of queries and the retrieval itself are not modelled.
- IncomeTax.CalculateTax: is exact; the rounding of the printed amounts is not modelled.
- OwnerRename.OwnerDatabase.Apply: leaves out the backup file, and the tables that the migration does not update (conversation turns and quality feedback cascade with their user).
- Fail-open admission beyond the generator's own branch: it bypasses the bound by design.
- The preparation of search arguments: an arbitrary function of the arguments; it does not influence what is proved.
- The wrapper that switches a shared model name across awaits around a library class.
- Keyword routing, greeting tables, fixed-text evaluations, fine tables and personal-data masking: long lists without a hard invariant.
- Workflow nodes, retrieval gateways, the cache, user interface, login flows, index building and database migrations.
