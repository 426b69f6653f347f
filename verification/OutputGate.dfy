/** The output gate of the agent: citation checks, claim verifier and legal critic decide which text may be delivered.
    Verifier, critic, citation checker and the text rewriters are arbitrary; a call can also raise. */
module OutputGate {
  import opened Common

  datatype Status = Verified | InsufficientEvidence | UnsupportedClaim | VerificationUnavailable

  datatype Policy = NoPolicy | LegalCorpus | Web

  datatype Reply<T> = Raised | Replied(value: T)

  /** A claim check.  `status` is absent when the verifier returned an unknown status; `reason` is stripped and case
      folded. */
  datatype Support = Support(status: Option<Status>, supported: bool, reason: string)

  datatype Verdict = Verdict(approved: bool, fatalError: bool, nonresponsive: bool, status: Status, corrected: string)

  datatype Citations = Citations(valid: bool, reason: string, items: seq<string>)

  // ---- the canonical status ----

  predicate IsFallbackReason(reason: string) {
    || reason in {"verifier_fallback", "critic_unavailable", "critic_disabled_or_empty_answer",
                  "claim_support_verifier_unavailable"}
    || Contains("timeout", reason) || Contains("unavailable", reason) || Contains("fallback", reason)
  }

  predicate IsNoEvidenceReason(reason: string) {
    reason in {"no_evidence_for_claims", "no_answer_or_evidence", "insufficient_evidence"}
  }

  function CanonicalStatus(s: Support): Status {
    match s.status
    case None => VerificationUnavailable
    case Some(parsed) =>
      if parsed != Verified then parsed
      else if IsFallbackReason(s.reason) then VerificationUnavailable
      else if IsNoEvidenceReason(s.reason) then InsufficientEvidence
      else if s.supported then Verified
      else UnsupportedClaim
  }

  /** Nothing is promoted to verified: the verifier itself said so, supported the claims, and gave neither a fallback
      nor a missing-evidence reason. */
  lemma VerifiedExactly(s: Support)
    ensures CanonicalStatus(s) == Verified <==>
            s.status == Some(Verified) && s.supported && !IsFallbackReason(s.reason) && !IsNoEvidenceReason(s.reason)
  {
  }

  // ---- the collaborators and the call log ----

  datatype Call = VerifyCall(text: string, support: Reply<Support>)
                | ReviewCall(text: string, feedback: bool, verdict: Reply<Verdict>)

  /** The environment of one check.  Verifier and critic may answer differently on every call. */
  datatype World = World(
    verify: (nat, string) -> Reply<Support>,
    review: (nat, string, bool) -> Reply<Verdict>,
    checkCitations: (bool, string) -> Citations,
    withoutPlaceholders: string -> string,
    anchored: string -> string,
    cites: string -> bool,
    documents: seq<string>,
    statutoryBasis: bool)

  datatype Request = Request(answer: string, requireEvidence: bool, hasVerifier: bool, hasCritic: bool,
                             policy: Option<Policy>, circuitBreaker: bool)

  datatype Outcome = Accepted(text: string, citations: seq<string>) | Rejected(reason: string)

  function FirstThree(documents: seq<string>): seq<string> {
    if |documents| <= 3 then documents else documents[..3]
  }

  predicate IsBlank(t: string) { Strip(t) == "" }

  function Corrected(w: World, raw: string): string { w.anchored(w.withoutPlaceholders(raw)) }

  function Draft(w: World, r: Request): string { w.anchored(w.withoutPlaceholders(r.answer)) }

  function EffectivePolicy(r: Request): Policy {
    if r.policy.Some? then r.policy.value else if r.requireEvidence then LegalCorpus else NoPolicy
  }

  predicate ChecksMeaning(r: Request) { EffectivePolicy(r) == LegalCorpus || r.policy.None? }

  predicate RequiresVerification(r: Request) { r.circuitBreaker && EffectivePolicy(r) == LegalCorpus }

  /** A citation problem that is tolerated when citations were found. */
  predicate Tolerated(c: Citations) {
    c.valid || (c.reason in {"legal_claim_without_citation", "article_reference_not_in_evidence"} && c.items != [])
  }

  function StatusText(s: Status): string {
    match s
    case Verified => "verified"
    case InsufficientEvidence => "insufficient_evidence"
    case UnsupportedClaim => "unsupported_claim"
    case VerificationUnavailable => "verification_unavailable"
  }

  // ---- what the log shows ----

  predicate Supports(s: Support) { s.supported && CanonicalStatus(s) == Verified }

  /** The claim verifier supported exactly this text. */
  ghost predicate ClaimVerified(calls: seq<Call>, text: string) {
    exists i :: 0 <= i < |calls| && calls[i].VerifyCall? && calls[i].text == text
                && calls[i].support.Replied? && Supports(calls[i].support.value)
  }

  /** The critic approved this text as it stands: no fatal flaw, responsive, and no correction. */
  ghost predicate CriticApproved(calls: seq<Call>, text: string) {
    exists i :: 0 <= i < |calls| && calls[i].ReviewCall? && calls[i].text == text && calls[i].verdict.Replied?
                && var v := calls[i].verdict.value;
                   v.approved && !v.fatalError && !v.nonresponsive && IsBlank(v.corrected)
  }

  /** The critic's correction of this text comes out as the text itself. */
  ghost predicate CorrectedToItself(w: World, calls: seq<Call>, text: string) {
    exists i :: 0 <= i < |calls| && calls[i].ReviewCall? && calls[i].text == text && calls[i].verdict.Replied?
                && var v := calls[i].verdict.value;
                   !v.fatalError && !IsBlank(v.corrected) && Corrected(w, v.corrected) == text
  }

  ghost function Verifications(calls: seq<Call>): nat {
    if calls == [] then 0 else Verifications(calls[..|calls| - 1]) + if calls[|calls| - 1].VerifyCall? then 1 else 0
  }

  ghost function Reviews(calls: seq<Call>): nat {
    if calls == [] then 0 else Reviews(calls[..|calls| - 1]) + if calls[|calls| - 1].ReviewCall? then 1 else 0
  }

  /** Every logged call was answered by the collaborator. */
  ghost predicate Faithful(w: World, calls: seq<Call>) {
    forall i :: 0 <= i < |calls| ==> Answered(w, i, calls[i])
  }

  ghost predicate Answered(w: World, i: nat, c: Call) {
    if c.VerifyCall? then c.support == w.verify(i, c.text) else c.verdict == w.review(i, c.text, c.feedback)
  }

  /** Logging an answered call keeps the log faithful, moves one counter, and loses no earlier verification. */
  lemma Logged(w: World, calls: seq<Call>, c: Call, text: string)
    requires Faithful(w, calls) && Answered(w, |calls|, c)
    ensures Faithful(w, calls + [c])
    ensures Verifications(calls + [c]) == Verifications(calls) + if c.VerifyCall? then 1 else 0
    ensures Reviews(calls + [c]) == Reviews(calls) + if c.ReviewCall? then 1 else 0
    ensures ClaimVerified(calls, text) ==> ClaimVerified(calls + [c], text)
    ensures c.VerifyCall? && c.support.Replied? && Supports(c.support.value) ==> ClaimVerified(calls + [c], c.text)
  {
    hide Supports, CanonicalStatus;
    var log := calls + [c];
    assert log[..|calls|] == calls;
    assert log[|calls|] == c;
    if ClaimVerified(calls, text) {
      var i :| 0 <= i < |calls| && calls[i].VerifyCall? && calls[i].text == text
               && calls[i].support.Replied? && Supports(calls[i].support.value);
      assert log[i] == calls[i];
    }
  }

  lemma NothingLogged(w: World, calls: seq<Call>)
    requires calls == []
    ensures Faithful(w, calls) && Verifications(calls) == 0 && Reviews(calls) == 0
  {
  }

  // ---- the gate ----

  /** Why an accepted text may be delivered when the circuit breaker is on and the draft carries a citation. */
  ghost predicate MayDeliver(w: World, draft: string, calls: seq<Call>, text: string) {
    || ClaimVerified(calls, text)
    || (text == draft && (CriticApproved(calls, draft) || CorrectedToItself(w, calls, draft)))
  }

  /** The gate has collaborators and evidence, and the draft cites something. */
  predicate Guarded(w: World, r: Request) {
    && RequiresVerification(r) && !IsBlank(r.answer)
    && w.documents != [] && w.cites(Draft(w, r))
  }

  /** A claim check after which nothing else is asked: no answer, or no evidence at all. */
  predicate StopsAtOnce(support: Reply<Support>) {
    support.Replied? ==>
      var status := CanonicalStatus(support.value);
      || status == VerificationUnavailable
      || (status == InsufficientEvidence && IsNoEvidenceReason(support.value.reason))
  }

  /** A verdict that does not reject the draft by itself; a nonresponsive draft may still be corrected. */
  predicate Passes(v: Verdict) { !v.fatalError && v.status in {Verified, UnsupportedClaim} }

  /** The one way around both collaborators: the verifier refuses the draft, and the critic's correction of it, by a
      verdict that does not reject it, comes out as the draft. */
  predicate CorrectionIsDraft(w: World, draft: string) {
    var support, verdict := w.verify(0, draft), w.review(1, draft, true);
    && support.Replied? && !StopsAtOnce(support) && !Supports(support.value)
    && verdict.Replied? && Passes(verdict.value)
    && !IsBlank(verdict.value.corrected) && Corrected(w, verdict.value.corrected) == draft
  }

  /** Text delivered although neither the verifier supported it nor the critic approved it. */
  ghost predicate DeliveredUnchecked(outcome: Outcome, calls: seq<Call>) {
    outcome.Accepted? && !ClaimVerified(calls, outcome.text) && !CriticApproved(calls, outcome.text)
  }

  /** A refused claim check and a review with a correction show neither support nor approval. */
  lemma ShowsNoApproval(calls: seq<Call>, text: string)
    requires |calls| == 2 && calls[0].VerifyCall? && calls[0].support.Replied? && !Supports(calls[0].support.value)
    requires calls[1].ReviewCall? && calls[1].verdict.Replied? && !IsBlank(calls[1].verdict.value.corrected)
    ensures !ClaimVerified(calls, text) && !CriticApproved(calls, text)
  {
    hide Supports, IsBlank;
  }

  /** The last thing asked was a claim check, and it supported its text. */
  predicate EndsSupported(calls: seq<Call>) {
    calls != [] && var last := calls[|calls| - 1];
                   last.VerifyCall? && last.support.Replied? && Supports(last.support.value)
  }

  /** From the calls made for a draft to the outcome. */
  ghost predicate Judged(w: World, draft: string, outcome: Outcome, calls: seq<Call>) {
    // the draft goes to the verifier, and to the critic unless the verifier stops it
    && calls != [] && calls[0].VerifyCall? && calls[0].text == draft
    && (if StopsAtOnce(calls[0].support) then outcome.Rejected? && |calls| == 1
        else |calls| >= 2 && calls[1].ReviewCall? && calls[1].text == draft
             && calls[1].feedback == !Supports(calls[0].support.value))
    // acceptance is justified
    && (outcome.Accepted? ==> MayDeliver(w, draft, calls, outcome.text))
    // a supported correction is delivered
    && (EndsSupported(calls) ==> outcome.Accepted? && outcome.text == calls[|calls| - 1].text)
    && (|calls| >= 2 && calls[1].ReviewCall? && calls[1].verdict.Replied? && Passes(calls[1].verdict.value) ==>
          var v := calls[1].verdict.value;
          // a correction that fails cannot take back a supported draft
          && (calls[0].support.Replied? && Supports(calls[0].support.value) && !v.nonresponsive ==> outcome.Accepted?)
          // a correction that comes out as the draft is not looked at again
          && (!IsBlank(v.corrected) && Corrected(w, v.corrected) == draft ==>
                outcome.Accepted? && outcome.text == draft && |calls| == 2))
    // and only that way is a text delivered unchecked
    && (DeliveredUnchecked(outcome, calls) <==> CorrectionIsDraft(w, draft))
  }

  method CheckOutput(w: World, r: Request) returns (outcome: Outcome, calls: seq<Call>)
    ensures Faithful(w, calls) && Verifications(calls) <= 3 && Reviews(calls) <= 2
    // what a guarded draft goes through, and what may come out
    ensures Guarded(w, r) && r.hasVerifier && r.hasCritic && Tolerated(w.checkCitations(false, Draft(w, r))) ==>
              Judged(w, Draft(w, r), outcome, calls)
    ensures Guarded(w, r) && outcome.Accepted? ==>
              && r.hasVerifier && r.hasCritic && MayDeliver(w, Draft(w, r), calls, outcome.text)
              && Tolerated(w.checkCitations(false, outcome.text))
              && outcome.citations == w.checkCitations(false, outcome.text).items
    // exactly when both collaborators are got around
    ensures Guarded(w, r) ==>
              (DeliveredUnchecked(outcome, calls) <==>
               && r.hasVerifier && r.hasCritic && Tolerated(w.checkCitations(false, Draft(w, r)))
               && CorrectionIsDraft(w, Draft(w, r)))
    // without citation nothing is checked
    ensures !IsBlank(r.answer) && r.hasVerifier && r.hasCritic && w.documents != [] && !w.cites(Draft(w, r)) ==>
              outcome.Accepted? && outcome.text == Draft(w, r) && calls == []
    ensures w.documents == [] && outcome.Accepted? ==> !r.requireEvidence && calls == []
  {
    hide Verifications, Reviews, Faithful, ClaimVerified, CanonicalStatus, Contains;
    hide IsFallbackReason, IsNoEvidenceReason;
    hide Strip, StripStart, StripEnd, StatusText, FirstThree, Tolerated;
    calls := [];
    NothingLogged(w, calls);
    if IsBlank(r.answer) {
      return Rejected("empty_answer"), calls;
    }
    var answer := w.withoutPlaceholders(r.answer);
    if RequiresVerification(r) && (!r.hasVerifier || !r.hasCritic) {
      return Rejected("verification_unavailable"), calls;
    }
    if w.documents == [] {
      if r.requireEvidence {
        return Rejected("insufficient_evidence"), calls;
      }
      return Accepted(answer, []), calls;
    }
    answer := w.anchored(answer);
    if !w.cites(answer) {
      return Accepted(answer, FirstThree(w.documents)), calls;
    }
    var citations := w.checkCitations(EffectivePolicy(r) == Web, answer);
    if !Tolerated(citations) {
      return Rejected(citations.reason), calls;
    }
    outcome, calls := Judge(w, r, answer, citations);
  }

  /** The claim verifier, then the critic, then the check of its correction. */
  method Judge(w: World, r: Request, answer: string, citations: Citations) returns (outcome: Outcome, calls: seq<Call>)
    requires citations == w.checkCitations(EffectivePolicy(r) == Web, answer) && Tolerated(citations)
    ensures Faithful(w, calls) && Verifications(calls) <= 3 && Reviews(calls) <= 2
    ensures RequiresVerification(r) && r.hasVerifier && r.hasCritic ==> Judged(w, answer, outcome, calls)
    ensures outcome.Accepted? ==>
              var c := w.checkCitations(EffectivePolicy(r) == Web, outcome.text);
              Tolerated(c) && outcome.citations == c.items
  {
    hide Verifications, Reviews, Faithful, ClaimVerified, CanonicalStatus, Contains;
    hide IsFallbackReason, IsNoEvidenceReason;
    hide Strip, StripStart, StripEnd, StatusText, Tolerated;
    calls := [];
    NothingLogged(w, calls);

    // the draft against the evidence
    var claimSupportPassed, feedback := false, false;
    if r.hasVerifier && ChecksMeaning(r) {
      var support := w.verify(|calls|, answer);
      Logged(w, calls, VerifyCall(answer, support), answer);
      calls := calls + [VerifyCall(answer, support)];
      if support.Raised? {
        return Rejected("verification_unavailable"), calls;
      }
      var status := CanonicalStatus(support.value);
      if status == VerificationUnavailable {
        return Rejected("verification_unavailable"), calls;
      }
      if status == InsufficientEvidence && IsNoEvidenceReason(support.value.reason) {
        return Rejected("claim_support_" + StatusText(status)), calls;
      }
      claimSupportPassed := support.value.supported && status == Verified;
      if !claimSupportPassed {
        feedback := true;
        if !r.hasCritic && !w.statutoryBasis {
          return Rejected("claim_support_" + StatusText(status)), calls;
        }
      }
    }

    // the critic
    var finalAnswer, canKeepVerifiedDraft := answer, false;
    if r.hasCritic && ChecksMeaning(r) {
      var verdict := w.review(|calls|, answer, feedback);
      Logged(w, calls, ReviewCall(answer, feedback, verdict), answer);
      calls := calls + [ReviewCall(answer, feedback, verdict)];
      if verdict.Raised? {
        if RequiresVerification(r) {
          return Rejected("verification_unavailable"), calls;
        }
      } else {
        var v := verdict.value;
        canKeepVerifiedDraft := claimSupportPassed && !v.fatalError && !v.nonresponsive;
        if v.status == VerificationUnavailable || v.status == InsufficientEvidence {
          return Rejected(StatusText(v.status)), calls;
        }
        if v.fatalError || (v.nonresponsive && IsBlank(v.corrected))
           || (!v.approved && IsBlank(v.corrected) && !claimSupportPassed)
        {
          return Rejected("critic_legal_flaw_rejected"), calls;
        }
        assert calls[|calls| - 1] == ReviewCall(answer, feedback, verdict);
        if !IsBlank(v.corrected) {
          finalAnswer := Corrected(w, v.corrected);
          assert finalAnswer == answer ==> CorrectedToItself(w, calls, answer);
        } else {
          assert v.approved && !v.nonresponsive ==> CriticApproved(calls, answer);
        }
      }
    }
    if finalAnswer == answer {
      if |calls| == 2 && CorrectionIsDraft(w, answer) {
        ShowsNoApproval(calls, answer);
      }
      return Accepted(answer, citations.items), calls;
    }
    outcome, calls := CheckCorrection(w, r, answer, citations.items, finalAnswer, feedback, canKeepVerifiedDraft,
                                      calls);
  }

  /** A correction is a new answer: it is checked again, and a failed one may be repaired once. */
  method CheckCorrection(w: World, r: Request, draft: string, draftCitations: seq<string>, corrected: string,
                         feedback: bool, canKeepVerifiedDraft: bool, before: seq<Call>)
    returns (outcome: Outcome, calls: seq<Call>)
    requires Faithful(w, before) && Verifications(before) <= 1 && Reviews(before) <= 1
    requires canKeepVerifiedDraft ==> ClaimVerified(before, draft)
    requires var c := w.checkCitations(EffectivePolicy(r) == Web, draft); Tolerated(c) && draftCitations == c.items
    ensures Faithful(w, calls) && Verifications(calls) <= 3 && Reviews(calls) <= 2
    ensures before <= calls
    ensures outcome.Accepted? && r.hasVerifier && ChecksMeaning(r) ==> ClaimVerified(calls, outcome.text)
    ensures outcome.Accepted? ==>
              var c := w.checkCitations(EffectivePolicy(r) == Web, outcome.text);
              Tolerated(c) && outcome.citations == c.items
    ensures canKeepVerifiedDraft ==> outcome.Accepted?
    // a tolerable correction is verified, and a supported one is what gets delivered
    ensures r.hasVerifier && ChecksMeaning(r) && Tolerated(w.checkCitations(EffectivePolicy(r) == Web, corrected)) ==>
              |calls| > |before| && calls[|before|].VerifyCall? && calls[|before|].text == corrected
    ensures |calls| > |before| && EndsSupported(calls) ==> outcome.Accepted? && outcome.text == calls[|calls| - 1].text
  {
    hide Verifications, Reviews, Faithful, ClaimVerified, CanonicalStatus, Contains;
    hide IsFallbackReason, IsNoEvidenceReason;
    hide Strip, StripStart, StripEnd, StatusText;
    calls := before;
    var web := EffectivePolicy(r) == Web;
    var citations := w.checkCitations(web, corrected);
    if !Tolerated(citations) {
      if canKeepVerifiedDraft {
        return Accepted(draft, draftCitations), calls;
      }
      return Rejected("corrected_answer_" + citations.reason), calls;
    }
    if !(r.hasVerifier && ChecksMeaning(r)) {
      return Accepted(corrected, citations.items), calls;
    }
    var support := w.verify(|calls|, corrected);
    Logged(w, calls, VerifyCall(corrected, support), draft);
    calls := calls + [VerifyCall(corrected, support)];
    if support.Raised? || CanonicalStatus(support.value) == VerificationUnavailable {
      if canKeepVerifiedDraft {
        return Accepted(draft, draftCitations), calls;
      }
      return Rejected("verification_unavailable"), calls;
    }
    if Supports(support.value) {
      return Accepted(corrected, citations.items), calls;
    }
    if canKeepVerifiedDraft {
      return Accepted(draft, draftCitations), calls;
    }
    var failure := "corrected_answer_" + StatusText(CanonicalStatus(support.value));
    if !feedback || !r.hasCritic {
      return Rejected(failure), calls;
    }
    var verdict := w.review(|calls|, corrected, true);
    Logged(w, calls, ReviewCall(corrected, true, verdict), draft);
    calls := calls + [ReviewCall(corrected, true, verdict)];
    var candidate := if verdict.Replied? then Strip(verdict.value.corrected) else "";
    if candidate == "" {
      return Rejected(failure), calls;
    }
    candidate := Corrected(w, candidate);
    var retryCitations := w.checkCitations(web, candidate);
    if !Tolerated(retryCitations) {
      return Rejected("corrected_answer_" + retryCitations.reason), calls;
    }
    var retrySupport := w.verify(|calls|, candidate);
    Logged(w, calls, VerifyCall(candidate, retrySupport), draft);
    calls := calls + [VerifyCall(candidate, retrySupport)];
    if retrySupport.Raised? {
      return Rejected("verification_unavailable"), calls;
    }
    if !Supports(retrySupport.value) {
      return Rejected("corrected_answer_" + StatusText(CanonicalStatus(retrySupport.value))), calls;
    }
    outcome := Accepted(candidate, retryCitations.items);
  }

  /** The exception is real: neither supported by the verifier nor approved by the critic, and still delivered. */
  method DeliverUnchecked() returns (w: World, r: Request, outcome: Outcome, calls: seq<Call>)
    ensures Guarded(w, r) && r.hasVerifier && r.hasCritic
    ensures DeliveredUnchecked(outcome, calls)
  {
    var unsupported := Support(Some(UnsupportedClaim), false, "");
    var same := Verdict(false, false, false, UnsupportedClaim, "A [1]");
    w := World((n, t) => Replied(unsupported), (n, t, f) => Replied(same), (web, t) => Citations(true, "", ["doc"]),
               t => t, t => t, t => true, ["doc"], false);
    r := Request("A [1]", true, true, true, Some(LegalCorpus), true);
    outcome, calls := CheckOutput(w, r);
    assert Answered(w, 0, calls[0]) && Answered(w, 1, calls[1]);
  }
}
