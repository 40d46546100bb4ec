/** What holds beyond the past of a campaign in the runs where no answer of Registro Imprese is late and
    nobody still queued is corrected or sent to again, and only in those: one open attempt, one protocol,
    exact counters. */
module CampaignOrder {
  import opened Text
  import opened Campaigns
  import opened CampaignSafety
  import opened CampaignCounters
  import opened CampaignHistory

  predicate Open(a: Attempt) {
    a.status.QUEUED? || a.status.PROCESSING?
  }

  predicate LastOfItsOwn(attempts: seq<Attempt>, i: nat)
    requires i < |attempts|
  {
    forall j :: i < j < |attempts| ==> attempts[j].recipient != attempts[i].recipient
  }

  /** An open attempt is the last one of a queued recipient. */
  predicate OpenIsLast(s: State)
    requires WellFormed(s)
  {
    forall i :: 0 <= i < |s.attempts| && Open(s.attempts[i]) ==>
      s.recipients[s.attempts[i].recipient].QUEUED? && LastOfItsOwn(s.attempts, i)
  }

  predicate Unprotocolled(attempts: seq<Attempt>, r: nat) {
    forall i :: 0 <= i < |attempts| && attempts[i].recipient == r ==> attempts[i].protocol.None?
  }

  /** A job on a channel queue is for an open attempt of that channel that is not at the protocol too;
      a job for the protocol is for a recipient without one, unless its attempt is closed. */
  predicate JobFits(s: State, j: Job)
    requires j.attempt < |s.attempts|
  {
    var a := s.attempts[j.attempt];
    if j.engine.Queue? then
      j.engine.channel == a.channel != SEND && Open(a) && Job(Protocollazione, j.attempt) !in s.jobs
    else a.status.QUEUED? ==> Unprotocolled(s.attempts, a.recipient)
  }

  predicate JobsFit(s: State)
    requires WellFormed(s)
  {
    forall j :: j in s.jobs ==> JobFits(s, j)
  }

  /** A recipient never gets two protocols. */
  predicate OneProtocol(attempts: seq<Attempt>) {
    forall i, j :: 0 <= i < |attempts| && 0 <= j < |attempts| && attempts[i].recipient == attempts[j].recipient ==>
      attempts[i].protocol.None? || attempts[j].protocol.None? || attempts[i].protocol == attempts[j].protocol
  }

  predicate Tidy(s: State) {
    Past(s) && OpenIsLast(s) && JobsFit(s) && OneProtocol(s.attempts)
  }

  // ------------------------------------------------------------- one attempt more

  predicate IsJobOf(attempts: seq<Attempt>, j: Job, id: nat, a: Attempt) {
    && j.attempt == id
    && if j.engine.Queue? then j.engine.channel == a.channel != SEND else Unprotocolled(attempts, a.recipient)
  }

  lemma AppendedTidy(s: State, t: State, a: Attempt, js: set<Job>)
    requires Tidy(s) && Appended(s, t, a, js)
    requires Follows(s, a) && OneProtocol(t.attempts)
    requires forall j, k :: j in js && k in js ==> j == k
    requires forall j :: j in js ==> IsJobOf(t.attempts, j, |s.attempts|, a)
    ensures Tidy(t)
  {
    AppendedPast(s, t, a, js);
    AppendedOpen(s, t, a, js);
    AppendedJobs(s, t, a, js);
  }

  lemma AppendedOpen(s: State, t: State, a: Attempt, js: set<Job>)
    requires WellFormed(s) && OpenIsLast(s) && Appended(s, t, a, js) && WellFormed(t)
    ensures OpenIsLast(t)
  {
  }

  lemma AppendedJobs(s: State, t: State, a: Attempt, js: set<Job>)
    requires WellFormed(s) && OpenIsLast(s) && JobsFit(s) && Appended(s, t, a, js) && WellFormed(t)
    requires forall j, k :: j in js && k in js ==> j == k
    requires forall j :: j in js ==> IsJobOf(t.attempts, j, |s.attempts|, a)
    ensures JobsFit(t)
  {
  }

  lemma RetryTidy(s: State, r: nat)
    requires Tidy(s) && SendOnly(s)
    ensures Tidy(Retry(s, r))
  {
    if Retriable(s, r) {
      var a := NextAttempt(s, r);
      NextFollows(s, r);
      RetryProtocol(s, a, r);
      AppendedTidy(s, Retry(s, r), a, RetryJobs(s, a));
    }
  }

  lemma RetryProtocol(s: State, a: Attempt, r: nat)
    requires OneProtocol(s.attempts) && a == NextAttempt(s, r)
    ensures OneProtocol(s.attempts + [a])
    ensures NeedsProtocol(s) && a.protocol.None? ==> Unprotocolled(s.attempts + [a], r)
  {
  }

  /** A retry goes out under the protocol the recipient already has, where the campaign needs one. */
  lemma RetryInherits(s: State, r: nat, i: nat)
    requires Tidy(s) && i < |s.attempts| && s.attempts[i].recipient == r && s.attempts[i].protocol.Some?
    ensures NextAttempt(s, r).protocol == if NeedsProtocol(s) then s.attempts[i].protocol else None
  {
    assert Counts(s.attempts[i], r, true);
  }

  /** The first attempt of somebody who was waiting. */
  lemma FirstTidy(s: State, t: State, a: Attempt, j: Job)
    requires Tidy(s) && Appended(s, t, a, {j}) && Waiting(s.recipients[a.recipient])
    requires a.number == 1 && a.protocol.None? && (s.channel != SEND ==> a.channel != SEND)
    requires j.attempt == |s.attempts| && (j.engine.Queue? ==> j.engine.channel == a.channel != SEND)
    ensures Tidy(t)
  {
    FirstFollows(s, a);
    assert forall i :: 0 <= i < |s.attempts| ==> s.attempts[i].recipient != a.recipient;
    AppendedTidy(s, t, a, {j});
  }

  lemma OneMoreTidy(s: State, ids: seq<nat>, diverted: set<nat>)
    requires WellFormed(s) && AllPending(s, ids) && ids != [] && (s.channel == SEND ==> diverted == {})
    requires Tidy(Created(s, ids[..|ids| - 1], diverted))
    ensures Tidy(Created(s, ids, diverted))
  {
    var n := |ids| - 1;
    CreatedStep(s, ids, diverted);
    FirstTidy(Created(s, ids[..n], diverted), Created(s, ids, diverted), FirstAttempt(s, ids[n], diverted),
      Job(EngineFor(s, ids[n], diverted), |s.attempts| + n));
  }

  lemma {:induction false} CreatedTidy(s: State, ids: seq<nat>, diverted: set<nat>)
    requires Tidy(s) && AllPending(s, ids) && (s.channel == SEND ==> diverted == {})
    ensures Tidy(Created(s, ids, diverted))
  {
    if ids == [] {
      CreatedNone(s, diverted);
    } else {
      CreatedTidy(s, ids[..|ids| - 1], diverted);
      OneMoreTidy(s, ids, diverted);
    }
  }

  // ------------------------------------------------------------- changes in place

  /** Attempts and recipients only move on: nothing is opened, nobody starts waiting, no job is added,
      and jobs on channel queues stay with open attempts. */
  predicate MovedOn(s: State, t: State)
    requires WellFormed(s) && WellFormed(t)
  {
    && StaysPut(s, t) && t.jobs <= s.jobs
    && (forall i :: 0 <= i < |s.attempts| ==> AttemptMovedOn(s, t, i))
    && (forall j :: j in t.jobs && j.engine.Queue? ==> Open(t.attempts[j.attempt]))
  }

  predicate AttemptMovedOn(s: State, t: State, i: nat)
    requires WellFormed(s) && WellFormed(t) && i < |s.attempts| == |t.attempts|
  {
    && t.attempts[i].protocol == s.attempts[i].protocol
    && (t.attempts[i].status.QUEUED? ==> s.attempts[i].status.QUEUED?)
    && (Open(t.attempts[i]) ==> Open(s.attempts[i]) && t.recipients[t.attempts[i].recipient].QUEUED?)
  }

  lemma MovedOnTidy(s: State, t: State)
    requires Tidy(s) && WellFormed(t) && MovedOn(s, t)
    ensures Tidy(t)
  {
    StaysPutPast(s, t);
    MovedOnOpen(s, t);
    MovedOnJobs(s, t);
    forall i | 0 <= i < |s.attempts| ensures t.attempts[i].protocol == s.attempts[i].protocol {
      assert AttemptMovedOn(s, t, i);
    }
    MovedOnProtocols(s, t);
  }

  lemma MovedOnOpen(s: State, t: State)
    requires WellFormed(s) && OpenIsLast(s) && WellFormed(t) && MovedOn(s, t)
    ensures OpenIsLast(t)
  {
    forall i | 0 <= i < |t.attempts| && Open(t.attempts[i])
      ensures t.recipients[t.attempts[i].recipient].QUEUED? && LastOfItsOwn(t.attempts, i)
    {
      assert AttemptMovedOn(s, t, i) && LastOfItsOwn(s.attempts, i);
    }
  }

  lemma MovedOnJobs(s: State, t: State)
    requires WellFormed(s) && JobsFit(s) && WellFormed(t) && MovedOn(s, t)
    ensures JobsFit(t)
  {
    forall j | j in t.jobs ensures JobFits(t, j) {
      assert JobFits(s, j) && AttemptMovedOn(s, t, j.attempt);
      if !j.engine.Queue? && t.attempts[j.attempt].status.QUEUED? {
        var r := s.attempts[j.attempt].recipient;
        forall i | 0 <= i < |t.attempts| && t.attempts[i].recipient == r ensures t.attempts[i].protocol.None? {
          assert AttemptMovedOn(s, t, i);
        }
      }
    }
  }

  lemma MovedOnProtocols(s: State, t: State)
    requires OneProtocol(s.attempts) && SameHistory(s.attempts, t.attempts)
    requires forall i :: 0 <= i < |s.attempts| ==> t.attempts[i].protocol == s.attempts[i].protocol
    ensures OneProtocol(t.attempts)
  {
  }

  // ------------------------------------------------------------- every operation

  lemma StatusTidy(s: State, status: CampaignStatus)
    requires Tidy(s)
    ensures Tidy(ToCampaign(s, status))
  {
  }

  lemma PendingTidy(s: State, diverted: set<nat>)
    requires Tidy(s) && (s.channel == SEND ==> diverted == {})
    ensures Tidy(CreatedForPending(s, diverted))
  {
    PendingAreAll(s);
    CreatedTidy(s, WithStatus(s.recipients, PENDING), diverted);
  }

  lemma HeldTidy(s: State, review: set<nat>)
    requires Tidy(s)
    ensures Tidy(Held(s, review))
  {
    HeldPast(s, review);
  }

  lemma CheckingTidy(s: State, companies: set<nat>, status: CampaignStatus)
    requires Tidy(s)
    ensures Tidy(ToCampaign(Verifying(s, companies), status))
  {
  }

  lemma LaunchTidy(s: State, route: Route)
    requires Tidy(s)
    ensures Tidy(Launch(s, route))
  {
    var q := ToCampaign(s, CampaignStatus.QUEUED);
    StatusTidy(s, CampaignStatus.QUEUED);
    PendingTidy(q, {});
    if s.channel != SEND {
      match route
      case Synced(diverted, review) =>
        HeldTidy(q, review);
        PendingTidy(Held(q, review), diverted);
      case Deferred(review, companies) =>
        HeldTidy(q, review);
        CheckingTidy(Held(q, review), companies, CHECKING_INAD);
      case Unreachable(review, companies) =>
        HeldTidy(q, review);
        CheckingTidy(Held(q, review), companies, DRAFT);
      case _ =>
    }
  }

  lemma CheckOverTidy(s: State, ready: bool, diverted: set<nat>)
    requires Tidy(s) && SendOnly(s)
    ensures Tidy(Finalize(s, ready, diverted)) && Tidy(SkipCheck(s))
  {
    if s.status.CHECKING_INAD? {
      var q := ToCampaign(s, CampaignStatus.QUEUED);
      StatusTidy(s, CampaignStatus.QUEUED);
      PendingTidy(q, {});
      PendingTidy(q, diverted);
    }
  }

  lemma TestSendTidy(s: State, blocked: bool, diverted: bool)
    requires Tidy(s)
    ensures Tidy(TestSend(s, blocked, diverted))
  {
    var t := s.(recipients := s.recipients + [PENDING]);
    MovedOnTidy(s, t);
    CreatedTidy(t, [|s.recipients|], if diverted && s.channel != SEND then {|s.recipients|} else {});
  }

  lemma CancelTidy(s: State, locked: set<nat>)
    requires Tidy(s) && SendOnly(s)
    ensures Tidy(Cancel(s, locked))
  {
    var t := Cancel(s, locked);
    if t != s {
      forall i | 0 <= i < |s.attempts| ensures AttemptMovedOn(s, t, i) {
        if Open(t.attempts[i]) {
          OnlyOneTakenBack(s, i, locked);
        }
      }
      forall j | j in t.jobs && j.engine.Queue? ensures Open(t.attempts[j.attempt]) {
        assert JobFits(s, j);
        assert Job(Queue(s.channel), j.attempt) in s.jobs ==> JobFits(s, Job(Queue(s.channel), j.attempt));
      }
      MovedOnTidy(s, t);
    }
  }

  /** A recipient with an open attempt that stays is not withdrawn. */
  lemma OnlyOneTakenBack(s: State, i: nat, locked: set<nat>)
    requires WellFormed(s) && OpenIsLast(s) && i < |s.attempts| && Open(s.attempts[i]) && !TakenBack(s, i, locked)
    ensures !Withdrawn(s, s.attempts[i].recipient, locked)
  {
  }

  lemma ForcedTidy(s: State, r: nat)
    requires Tidy(s) && r < |s.recipients| && !s.recipients[r].QUEUED?
    ensures Tidy(Forced(s, r))
  {
  }

  /** Sending again to somebody still queued leaves two open attempts, or one of somebody failed. */
  lemma ForcedBreaks(s: State, r: nat)
    requires Tidy(s) && Safe(s) && r < |s.recipients| && s.recipients[r].QUEUED?
    ensures !Tidy(Retry(Forced(s, r), r))
  {
    var f, t := Forced(s, r), Retry(Forced(s, r), r);
    var id :| 0 <= id < |s.attempts| && s.attempts[id].recipient == r && Working(s, id);
    assert Open(s.attempts[id]);
    if s.status.CANCELLED? {
      assert t == f && f.attempts[id] == s.attempts[id] && f.recipients[r].FAILED?;
    } else {
      assert t.attempts == s.attempts + [NextAttempt(f, r)];
      assert t.attempts[id] == s.attempts[id] && t.attempts[|s.attempts|].recipient == r;
      assert !LastOfItsOwn(t.attempts, id);
    }
  }

  lemma ForcedRetryTidy(s: State, r: nat)
    requires Tidy(s) && Safe(s) && r < |s.recipients|
    ensures Tidy(Retry(Forced(s, r), r)) <==> !s.recipients[r].QUEUED?
  {
    if s.recipients[r].QUEUED? {
      ForcedBreaks(s, r);
    } else {
      ForcedTidy(s, r);
      RetryTidy(Forced(s, r), r);
    }
  }

  predicate CorrectsQueued(s: State, r: nat, acceptable: bool) {
    r < |s.recipients| && s.recipients[r].QUEUED? && acceptable && (s.channel == POSTAL || s.channel == SEND)
  }

  /** Correcting an address breaks the order exactly for somebody still queued. */
  lemma CorrectAddressTidy(s: State, r: nat, acceptable: bool)
    requires Tidy(s) && Safe(s)
    ensures Tidy(CorrectAddress(s, r, acceptable)) <==> !CorrectsQueued(s, r, acceptable)
  {
    if r < |s.recipients| {
      ForcedRetryTidy(s, r);
    }
  }

  /** The content was corrected since the recipient, on a channel that may be sent to again, was last sent to. */
  predicate ResendsQueued(s: State, r: nat) {
    var last := LastOf(s.attempts, r);
    && r < |s.recipients| && s.recipients[r].QUEUED? && !s.status.CANCELLED?
    && !(r in s.resentWith && s.resentWith[r] == s.content)
    && last.Some? && s.attempts[last.value].channel != POSTAL && s.attempts[last.value].channel != SEND
  }

  lemma SignatureTidy(s: State, resentWith: map<nat, string>)
    ensures Tidy(s.(resentWith := resentWith)) <==> Tidy(s)
  {
    var t := s.(resentWith := resentWith);
    assert WellFormed(s) <==> WellFormed(t);
    if WellFormed(s) {
      assert forall j :: j in s.jobs ==> (JobFits(s, j) <==> JobFits(t, j));
    }
  }

  /** So does a content resend. */
  lemma ResendTidy(s: State, r: nat, appIoDelivered: bool)
    requires Tidy(s) && Safe(s)
    ensures Tidy(Resend(s, r, appIoDelivered)) <==> !ResendsQueued(s, r)
  {
    if r < |s.recipients| {
      var signed := s.resentWith[r := s.content];
      ForcedRetryTidy(s, r);
      SignatureTidy(Retry(Forced(s, r), r), signed);
      SignatureTidy(s, signed);
    }
  }

  lemma ResolveReviewTidy(s: State, r: nat)
    requires Tidy(s)
    ensures Tidy(ResolveReview(s, r))
  {
    if r < |s.recipients| && s.recipients[r].PENDING_REVIEW? {
      var p := s.(recipients := s.recipients[r := PENDING]);
      MovedOnTidy(s, p);
      CreatedTidy(p, [r], {});
      StatusTidy(Created(p, [r], {}), CampaignStatus.QUEUED);
    }
  }

  lemma AttachTidy(s: State, r: nat, number: nat, idPro: string, valid: bool)
    requires Tidy(s)
    ensures Tidy(Attach(s, r, number, idPro, valid))
  {
    var id := AttemptNumbered(s.attempts, r, number);
    if id.Some? && r < |s.recipients| {
      var a := s.attempts[id.value];
      TrackedTidy(s, id.value, a.(tracking := idPro));
      if a.status.FAILED? {
        var b := a.(tracking := idPro, status := SUCCESS);
        TrackedTidy(s, id.value, b);
        PromotedTidy(s.(attempts := s.attempts[id.value := b]), r);
      }
    }
  }

  lemma PromotedTidy(s: State, r: nat)
    requires Tidy(s) && r < |s.recipients|
    ensures Tidy(Promoted(s, r))
  {
  }

  /** An attempt that keeps its past, its protocol and whether it is open. */
  lemma TrackedTidy(s: State, id: nat, a: Attempt)
    requires Tidy(s) && id < |s.attempts| && a == s.attempts[id].(status := a.status, tracking := a.tracking)
    requires a.status == s.attempts[id].status || (!Open(a) && !Open(s.attempts[id]))
    ensures Tidy(s.(attempts := s.attempts[id := a]))
  {
    var t := s.(attempts := s.attempts[id := a]);
    forall i | 0 <= i < |s.attempts| ensures AttemptMovedOn(s, t, i) {
    }
    forall j | j in t.jobs && j.engine.Queue? ensures Open(t.attempts[j.attempt]) {
      assert JobFits(s, j);
    }
    MovedOnTidy(s, t);
  }

  /** A worker ends the open attempt of a queued recipient, whose job on the channel queue is gone. */
  lemma EndedTidy(s: State, t: State, id: nat, ok: bool)
    requires Tidy(s) && id < |s.attempts| && Open(s.attempts[id])
    requires t == s.(jobs := t.jobs, resentWith := t.resentWith) && t.jobs <= s.jobs
    requires !HasJob(t, id)
    ensures Tidy(Settled(t, id, ok))
  {
    EndedAttempts(s, t, id, ok);
    var u := Ended(t, id, ok);
    forall j | j in u.jobs && j.engine.Queue? ensures Open(u.attempts[j.attempt]) {
      assert JobFits(s, j);
    }
    MovedOnTidy(s, u);
    StatusTidy(u, Settled(t, id, ok).status);
  }

  lemma EndedAttempts(s: State, t: State, id: nat, ok: bool)
    requires WellFormed(s) && OpenIsLast(s) && id < |s.attempts| && Open(s.attempts[id])
    requires t == s.(jobs := t.jobs, resentWith := t.resentWith) && t.jobs <= s.jobs
    ensures WellFormed(Ended(t, id, ok))
    ensures forall i :: 0 <= i < |s.attempts| ==> AttemptMovedOn(s, Ended(t, id, ok), i)
  {
  }

  lemma WorkerStartTidy(s: State, id: nat)
    requires Tidy(s)
    ensures Tidy(Step(s, WorkerStarts(id)))
  {
    if HasJob(s, id) {
      StartedTidy(s, id);
    }
  }

  lemma StartedTidy(s: State, id: nat)
    requires Tidy(s) && HasJob(s, id)
    ensures Tidy(WorkerStart(s, id))
  {
    assert JobFits(s, Job(Queue(s.attempts[id].channel), id));
    var t := WorkerStart(s, id);
    forall i | 0 <= i < |s.attempts| ensures AttemptMovedOn(s, t, i) {
    }
    MovedOnTidy(s, t);
  }

  lemma WorkerFinishTidy(s: State, id: nat, ok: bool, appIo: bool)
    requires Tidy(s)
    ensures Tidy(Step(s, WorkerFinishes(id, ok, appIo)))
    ensures HasJob(s, id) ==> Open(s.attempts[id]) && s.recipients[s.attempts[id].recipient].QUEUED?
  {
    if HasJob(s, id) {
      var a := s.attempts[id];
      assert JobFits(s, Job(Queue(a.channel), id));
      var t := s.(jobs := s.jobs - {Job(Queue(a.channel), id)});
      EndedTidy(s, if appIo then t.(resentWith := t.resentWith[a.recipient := t.content]) else t, id, ok);
    }
  }

  lemma SendHasNoJob(s: State, id: nat)
    requires WellFormed(s) && JobsFit(s) && id < |s.attempts| && s.attempts[id].channel == SEND
    ensures !HasJob(s, id)
  {
  }

  lemma AtProtocolHasNoJob(s: State, id: nat)
    requires WellFormed(s) && JobsFit(s) && Job(Protocollazione, id) in s.jobs
    ensures !HasJob(s, id)
  {
  }

  lemma PollTidy(s: State, id: nat, ok: bool)
    requires Tidy(s)
    ensures Tidy(Step(s, Polled(id, ok)))
  {
    if Pollable(s, id) {
      SendHasNoJob(s, id);
      EndedTidy(s, s, id, ok);
    }
  }

  lemma NumberedTidy(s: State, id: nat, n: nat)
    requires Tidy(s) && Job(Protocollazione, id) in s.jobs && s.attempts[id].status.QUEUED?
    ensures Tidy(Protocol(s, id, ProtocolAnswer.Numbered(n)))
  {
    var t := Protocol(s, id, ProtocolAnswer.Numbered(n));
    assert JobFits(s, Job(Protocollazione, id));
    StaysPutPast(s, t);
    NumberedJobs(s, t, id, n);
    forall i | 0 <= i < |t.attempts| && Open(t.attempts[i]) ensures LastOfItsOwn(t.attempts, i) {
      assert Open(s.attempts[i]) && LastOfItsOwn(s.attempts, i);
    }
    NumberedOnce(s.attempts, t.attempts, id);
  }

  lemma NumberedOnce(a: seq<Attempt>, b: seq<Attempt>, id: nat)
    requires OneProtocol(a) && id < |a| == |b| && b == a[id := b[id]] && b[id].recipient == a[id].recipient
    requires Unprotocolled(a, a[id].recipient)
    ensures OneProtocol(b)
  {
  }

  lemma NumberedJobs(s: State, t: State, id: nat, n: nat)
    requires Tidy(s) && Job(Protocollazione, id) in s.jobs && s.attempts[id].status.QUEUED?
    requires t == Protocol(s, id, ProtocolAnswer.Numbered(n)) && WellFormed(t)
    ensures JobsFit(t)
  {
    forall j | j in t.jobs ensures JobFits(t, j) {
      if j in s.jobs {
        assert JobFits(s, j);
      }
      if j in s.jobs && j.attempt != id && s.attempts[j.attempt].status.QUEUED? {
        assert LastOfItsOwn(s.attempts, j.attempt) && LastOfItsOwn(s.attempts, id);
      }
    }
  }

  lemma ProtocolTidy(s: State, id: nat, answer: ProtocolAnswer)
    requires Tidy(s)
    ensures Tidy(Step(s, ProtocolAnswers(id, answer)))
  {
    if Job(Protocollazione, id) in s.jobs {
      var t := s.(jobs := s.jobs - {Job(Protocollazione, id)});
      if !s.attempts[id].status.QUEUED? {
        forall j | j in t.jobs && j.engine.Queue? ensures Open(t.attempts[j.attempt]) {
          assert JobFits(s, j);
        }
        MovedOnTidy(s, t);
      } else if answer.Numbered? {
        NumberedTidy(s, id, answer.number);
      } else if answer.Refused? {
        AtProtocolHasNoJob(s, id);
        EndedTidy(s, t, id, false);
      }
    }
  }

  /** An answer of Registro Imprese breaks the order exactly when it is late. */
  lemma VerifyTidy(s: State, r: nat, differs: bool)
    requires Tidy(s)
    ensures Tidy(Verify(s, r, differs)) <==> !LateAnswer(s, r, differs)
  {
    var t := Verify(s, r, differs);
    VerifyPast(s, r, differs);
    if !LateAnswer(s, r, differs) {
      assert forall i :: 0 <= i < |s.attempts| ==> t.recipients[s.attempts[i].recipient] == s.recipients[s.attempts[i].recipient];
      assert forall j :: j in t.jobs ==> (JobFits(s, j) <==> JobFits(t, j));
    }
  }

  // ------------------------------------------------------------- regular runs

  predicate Regular(s: State, e: Event) {
    match e
    case Verified(r, differs) => !LateAnswer(s, r, differs)
    case DoCorrectAddress(r, acceptable) => !CorrectsQueued(s, r, acceptable)
    case DoResend(r, _) => !ResendsQueued(s, r)
    case _ => true
  }

  /** A step keeps the order exactly when it is regular. */
  lemma StepTidy(s: State, e: Event)
    requires Tidy(s) && Safe(s)
    ensures Tidy(Step(s, e)) <==> Regular(s, e)
  {
    if e.Verified? {
      VerifyTidy(s, e.r, e.differs);
    } else if e.DoCorrectAddress? {
      CorrectAddressTidy(s, e.r, e.acceptable);
    } else if e.DoResend? {
      ResendTidy(s, e.r, e.appIoDelivered);
    } else if ByWorker(e) {
      WorkerTidy(s, e);
    } else {
      ServiceTidy(s, e);
    }
  }

  lemma WorkerTidy(s: State, e: Event)
    requires Tidy(s) && ByWorker(e) && !e.Verified?
    ensures Tidy(Step(s, e))
  {
    match e
    case WorkerStarts(id) => WorkerStartTidy(s, id);
    case WorkerFinishes(id, ok, appIo) => WorkerFinishTidy(s, id, ok, appIo);
    case ProtocolAnswers(id, answer) => ProtocolTidy(s, id, answer);
    case Polled(id, ok) => PollTidy(s, id, ok);
    case _ =>
  }

  lemma ServiceTidy(s: State, e: Event)
    requires Tidy(s) && SendOnly(s) && !ByWorker(e) && !e.DoCorrectAddress? && !e.DoResend?
    ensures Tidy(Step(s, e))
  {
    match e
    case DoLaunch(route) => LaunchTidy(s, route);
    case DoFinalize(ready, diverted) => CheckOverTidy(s, ready, diverted);
    case DoSkip => CheckOverTidy(s, false, {});
    case DoTestSend(blocked, toPec) => TestSendTidy(s, blocked, toPec);
    case DoCancel(locked) => CancelTidy(s, locked);
    case DoRetry(r) => RetryTidy(s, r);
    case DoResolveReview(r) => ResolveReviewTidy(s, r);
    case DoAttach(r, number, idPro, valid) => AttachTidy(s, r, number, idPro, valid);
    case ContentChanged(content) => ContentTidy(s, content);
    case _ =>
  }

  lemma ContentTidy(s: State, content: string)
    requires Tidy(s)
    ensures Tidy(s.(content := content))
  {
    MovedOnTidy(s, s.(content := content));
  }

  lemma WorkerFinishCounts(s: State, id: nat, ok: bool, appIo: bool)
    requires Tidy(s)
    ensures Drift(WorkerFinish(s, id, ok, appIo)) == Drift(s)
  {
    WorkerFinishTidy(s, id, ok, appIo);
    if HasJob(s, id) {
      var a := s.attempts[id];
      var t := s.(jobs := s.jobs - {Job(Queue(a.channel), id)});
      EndedCounts(s, if appIo then t.(resentWith := t.resentWith[a.recipient := t.content]) else t, id, ok);
    }
  }

  /** The end of a sending to somebody queued, whatever became of the jobs, is counted right. */
  lemma EndedCounts(s: State, t: State, id: nat, ok: bool)
    requires WellFormed(s) && id < |s.attempts| && s.recipients[s.attempts[id].recipient].QUEUED?
    requires t == s.(jobs := t.jobs, resentWith := t.resentWith)
    ensures Drift(Settled(t, id, ok)) == Drift(s)
  {
    EndedDrift(t, id, ok);
  }

  lemma ProtocolCounts(s: State, id: nat, answer: ProtocolAnswer)
    requires Tidy(s)
    ensures Drift(Protocol(s, id, answer)) == Drift(s)
  {
    if Job(Protocollazione, id) in s.jobs {
      var t := s.(jobs := s.jobs - {Job(Protocollazione, id)});
      if s.attempts[id].status.QUEUED? && answer.Refused? {
        assert Open(s.attempts[id]);
        EndedCounts(s, t, id, false);
        assert Protocol(s, id, answer) == Settled(t, id, false);
      } else {
        assert Protocol(s, id, answer).recipients == s.recipients;
      }
    }
  }

  lemma PollCounts(s: State, id: nat, ok: bool)
    requires Tidy(s)
    ensures Drift(Poll(s, id, ok)) == Drift(s)
  {
    if Pollable(s, id) {
      assert Open(s.attempts[id]);
      EndedCounts(s, s, id, ok);
    }
  }

  predicate Outcome(status: RecipientStatus) {
    status.SENT? || status.FAILED?
  }

  /** In a PEC campaign whoever has an outcome was tried. */
  predicate Grounded(s: State) {
    s.channel == PEC ==> forall r :: 0 <= r < |s.recipients| && Outcome(s.recipients[r]) ==> Tried(s.attempts, r)
  }

  lemma GroundedKept(s: State, t: State)
    requires Grounded(s) && t.channel == s.channel && |s.attempts| <= |t.attempts|
    requires forall i :: 0 <= i < |s.attempts| ==> t.attempts[i].recipient == s.attempts[i].recipient
    requires forall r :: 0 <= r < |t.recipients| && Outcome(t.recipients[r]) ==>
      (r < |s.recipients| && Outcome(s.recipients[r])) || Tried(t.attempts, r)
    ensures Grounded(t)
  {
    forall r | 0 <= r < |s.recipients| && Tried(s.attempts, r) ensures Tried(t.attempts, r) {
      var i :| 0 <= i < |s.attempts| && s.attempts[i].recipient == r;
      assert t.attempts[i].recipient == r;
    }
  }

  lemma EndedGrounded(s: State, id: nat, ok: bool)
    requires WellFormed(s) && Grounded(s) && id < |s.attempts|
    ensures Grounded(Settled(s, id, ok))
  {
    var t := Settled(s, id, ok);
    assert t.attempts[id].recipient == s.attempts[id].recipient;
    GroundedKept(s, t);
  }

  lemma RetryGrounded(s: State, r: nat)
    requires Grounded(s)
    ensures Grounded(Retry(s, r))
  {
    GroundedKept(s, Retry(s, r));
  }

  lemma ResendGrounded(s: State, r: nat, appIoDelivered: bool)
    requires WellFormed(s) && Grounded(s)
    ensures Grounded(Resend(s, r, appIoDelivered))
  {
    var last := LastOf(s.attempts, r);
    if last.Some? && r < |s.recipients| {
      assert s.attempts[last.value].recipient == r;
      GroundedKept(s, Forced(s, r));
      RetryGrounded(Forced(s, r), r);
      GroundedKept(Retry(Forced(s, r), r), Retry(Forced(s, r), r).(resentWith := s.resentWith[r := s.content]));
    }
  }

  lemma WorkerGrounded(s: State, id: nat, ok: bool, appIo: bool, answer: ProtocolAnswer)
    requires WellFormed(s) && Grounded(s)
    ensures Grounded(WorkerFinish(s, id, ok, appIo)) && Grounded(Protocol(s, id, answer)) && Grounded(Poll(s, id, ok))
  {
    if id < |s.attempts| {
      var a := s.attempts[id];
      var t := s.(jobs := s.jobs - {Job(Queue(a.channel), id)});
      EndedGrounded(if appIo then t.(resentWith := t.resentWith[a.recipient := t.content]) else t, id, ok);
      EndedGrounded(s.(jobs := s.jobs - {Job(Protocollazione, id)}), id, false);
      EndedGrounded(s, id, ok);
      GroundedKept(s, s.(attempts := s.attempts[id := a.(protocol := if answer.Numbered? then Some(answer.number) else None)]));
    }
  }

  lemma LaunchGrounded(s: State, route: Route)
    requires Grounded(s)
    ensures Grounded(Launch(s, route))
  {
    GroundedKept(s, Launch(s, route));
  }

  lemma CheckOverGrounded(s: State, ready: bool, diverted: set<nat>)
    requires Grounded(s)
    ensures Grounded(Finalize(s, ready, diverted)) && Grounded(SkipCheck(s))
  {
    GroundedKept(s, Finalize(s, ready, diverted));
    GroundedKept(s, SkipCheck(s));
  }

  lemma WorkerStartGrounded(s: State, id: nat)
    requires Grounded(s)
    ensures Grounded(WorkerStart(s, id))
  {
    GroundedKept(s, WorkerStart(s, id));
  }

  lemma VerifyGrounded(s: State, r: nat, differs: bool)
    requires Grounded(s)
    ensures Grounded(Verify(s, r, differs))
  {
    GroundedKept(s, Verify(s, r, differs));
  }

  lemma CancelGrounded(s: State, locked: set<nat>)
    requires Grounded(s)
    ensures Grounded(Cancel(s, locked))
  {
    GroundedKept(s, Cancel(s, locked));
  }

  lemma AttachGrounded(s: State, r: nat, number: nat, idPro: string, valid: bool)
    requires Grounded(s)
    ensures Grounded(Attach(s, r, number, idPro, valid))
  {
    GroundedKept(s, Attach(s, r, number, idPro, valid));
  }

  lemma TestSendGrounded(s: State, blocked: bool, diverted: bool)
    requires Grounded(s)
    ensures Grounded(TestSend(s, blocked, diverted))
  {
    GroundedKept(s, TestSend(s, blocked, diverted));
  }

  lemma ResolveReviewGrounded(s: State, r: nat)
    requires Grounded(s)
    ensures Grounded(ResolveReview(s, r))
  {
    GroundedKept(s, ResolveReview(s, r));
  }

  lemma StepGrounded(s: State, e: Event)
    requires WellFormed(s) && Grounded(s)
    ensures Grounded(Step(s, e))
  {
    match e
    case DoRetry(r) => RetryGrounded(s, r);
    case DoCorrectAddress(r, acceptable) =>
    case DoResend(r, appIoDelivered) => ResendGrounded(s, r, appIoDelivered);
    case WorkerFinishes(id, ok, appIo) => WorkerGrounded(s, id, ok, appIo, TryLater);
    case ProtocolAnswers(id, answer) => WorkerGrounded(s, id, false, false, answer);
    case Polled(id, ok) => WorkerGrounded(s, id, ok, false, TryLater);
    case DoLaunch(route) => LaunchGrounded(s, route);
    case DoFinalize(ready, diverted) => CheckOverGrounded(s, ready, diverted);
    case DoCancel(locked) => CancelGrounded(s, locked);
    case DoAttach(r, number, idPro, valid) => AttachGrounded(s, r, number, idPro, valid);
    case DoSkip => CheckOverGrounded(s, false, {});
    case DoTestSend(blocked, toPec) => TestSendGrounded(s, blocked, toPec);
    case DoResolveReview(r) => ResolveReviewGrounded(s, r);
    case ContentChanged(content) => GroundedKept(s, s.(content := content));
    case WorkerStarts(id) => WorkerStartGrounded(s, id);
    case Verified(r, differs) => VerifyGrounded(s, r, differs);
  }

  /** Whatever a worker ends was the open attempt of a queued recipient, so it is counted right. */
  lemma StepCounts(s: State, e: Event)
    requires Tidy(s) && Grounded(s) && Regular(s, e)
    ensures Drift(Step(s, e)) == Drift(s)
  {
    match e
    case WorkerFinishes(id, ok, appIo) => WorkerFinishCounts(s, id, ok, appIo);
    case ProtocolAnswers(id, answer) => ProtocolCounts(s, id, answer);
    case Polled(id, ok) => PollCounts(s, id, ok);
    case Verified(r, differs) => VerifyDrift(s, r, differs);
    case _ => ServiceKeepsDrift(s, e);
  }

  predicate Orderly(s: State) {
    Tidy(s) && Grounded(s) && Drift(s) == (0, 0)
  }

  lemma StepOrderly(s: State, e: Event)
    requires Orderly(s) && Safe(s)
    ensures Orderly(Step(s, e)) <==> Regular(s, e)
  {
    StepTidy(s, e);
    StepGrounded(s, e);
    if Regular(s, e) {
      StepCounts(s, e);
    }
  }

  /** Every moment of the run is orderly. */
  predicate OrderlyThroughout(s: State, events: seq<Event>)
    requires Initial(s)
  {
    Orderly(Run(s, events)) && (events != [] ==> OrderlyThroughout(s, events[..|events| - 1]))
  }

  predicate RegularRun(s: State, events: seq<Event>)
    requires Initial(s)
  {
    events != [] ==>
      var before := events[..|events| - 1];
      RegularRun(s, before) && Regular(Run(s, before), events[|events| - 1])
  }

  /** A run is orderly at every moment, both counters exact, exactly when each of its steps is regular. */
  lemma {:induction false} RunOrderly(s: State, events: seq<Event>)
    requires Initial(s)
    ensures OrderlyThroughout(s, events) <==> RegularRun(s, events)
  {
    if events != [] {
      var before := events[..|events| - 1];
      RunOrderly(s, before);
      if OrderlyThroughout(s, before) {
        assert Orderly(Run(s, before));
        StepOrderly(Run(s, before), events[|events| - 1]);
      }
    }
  }

  /** A recipient is queued exactly when one of its attempts is open, and then only one is. */
  lemma QueuedHasOneOpen(s: State, r: nat)
    requires Orderly(s) && Safe(s) && r < |s.recipients|
    ensures s.recipients[r].QUEUED? <==> exists i :: 0 <= i < |s.attempts| && s.attempts[i].recipient == r && Open(s.attempts[i])
    ensures forall i, j :: 0 <= i < j < |s.attempts| && s.attempts[i].recipient == s.attempts[j].recipient == r ==> !Open(s.attempts[i])
  {
  }

  lemma SettledMovesQueued(s: State, t: State, id: nat, ok: bool, r: nat)
    requires Tidy(s) && id < |s.attempts| && Open(s.attempts[id])
    requires t == s.(jobs := t.jobs, resentWith := t.resentWith)
    requires r < |s.recipients| && !s.recipients[r].QUEUED?
    ensures |Settled(t, id, ok).recipients| == |s.recipients| && Settled(t, id, ok).recipients[r] == s.recipients[r]
  {
  }

  /** The send worker moves queued recipients only: somebody cancelled, or sent already, is not sent to. */
  lemma WorkerMovesQueuedOnly(s: State, r: nat, id: nat, ok: bool, appIo: bool)
    requires Orderly(s) && r < |s.recipients| && !s.recipients[r].QUEUED?
    ensures WorkerStart(s, id).recipients == s.recipients
    ensures |WorkerFinish(s, id, ok, appIo).recipients| == |s.recipients|
    ensures WorkerFinish(s, id, ok, appIo).recipients[r] == s.recipients[r]
  {
    WorkerFinishTidy(s, id, ok, appIo);
    if HasJob(s, id) {
      var a := s.attempts[id];
      var t := s.(jobs := s.jobs - {Job(Queue(a.channel), id)});
      SettledMovesQueued(s, if appIo then t.(resentWith := t.resentWith[a.recipient := t.content]) else t, id, ok, r);
    }
  }

  /** Nor do the protocol worker and the SEND poller. */
  lemma SendMovesQueuedOnly(s: State, r: nat, id: nat, ok: bool, answer: ProtocolAnswer)
    requires Orderly(s) && r < |s.recipients| && !s.recipients[r].QUEUED?
    ensures |Protocol(s, id, answer).recipients| == |Poll(s, id, ok).recipients| == |s.recipients|
    ensures Protocol(s, id, answer).recipients[r] == Poll(s, id, ok).recipients[r] == s.recipients[r]
  {
    if Pollable(s, id) {
      SettledMovesQueued(s, s, id, ok, r);
    }
    if Job(Protocollazione, id) in s.jobs && s.attempts[id].status.QUEUED? {
      SettledMovesQueued(s, s.(jobs := s.jobs - {Job(Protocollazione, id)}), id, false, r);
    }
  }

  /** Cancelling takes a queued recipient out exactly when its open attempt is taken back. One waiting
      for its protocol, or diverted to another channel than the campaign's, is not: in a campaign other
      than SEND it stays queued and somebody still works on it, in a campaign now cancelled. */
  lemma CancelLeaves(s: State, locked: set<nat>, i: nat)
    requires Orderly(s) && Safe(s) && (s.status.QUEUED? || s.status.CHECKING_INAD?)
    requires i < |s.attempts| && Open(s.attempts[i])
    ensures var r, t := s.attempts[i].recipient, Cancel(s, locked);
      && |t.recipients| == |s.recipients| && t.status.CANCELLED?
      && (t.recipients[r].QUEUED? <==> !TakenBack(s, i, locked))
      && (t.recipients[r].QUEUED? ==> Served(t, r))
      && (s.channel != SEND && (s.attempts[i].channel != s.channel || Job(Protocollazione, i) in s.jobs) ==> t.recipients[r].QUEUED?)
  {
    CancelSafe(s, locked);
    if !TakenBack(s, i, locked) {
      OnlyOneTakenBack(s, i, locked);
    }
    assert Job(Queue(s.channel), i) in s.jobs ==> JobFits(s, Job(Queue(s.channel), i));
  }

  // A PEC campaign of one company, checked in bulk, the check skipped; Registro Imprese answers late,
  // the operator resolves the review.

  function Company(status: CampaignStatus, r: RecipientStatus, attempts: nat, verifying: set<nat>): State {
    State(PEC, false, false, "", status, 0, 0, [r],
      seq(attempts, _ => Attempt(0, PEC, AttemptStatus.QUEUED, 1, None, "")),
      set i | 0 <= i < attempts :: Job(Queue(PEC), i), verifying, map[])
  }

  lemma CompanySkipped()
    ensures SkipCheck(Company(CHECKING_INAD, PENDING, 0, {0}))
      == Company(CampaignStatus.QUEUED, RecipientStatus.QUEUED, 1, {0})
  {
  }

  lemma CompanyReviewed()
    ensures Verify(Company(CampaignStatus.QUEUED, RecipientStatus.QUEUED, 1, {0}), 0, true)
      == Company(CampaignStatus.QUEUED, PENDING_REVIEW, 1, {})
    ensures ResolveReview(Company(CampaignStatus.QUEUED, PENDING_REVIEW, 1, {}), 0)
      == Company(CampaignStatus.QUEUED, RecipientStatus.QUEUED, 2, {})
  {
  }

  lemma CompanyChecked()
    ensures Initial(Company(DRAFT, PENDING, 0, {}))
    ensures Launch(Company(DRAFT, PENDING, 0, {}), Deferred({}, {0})) == Company(CHECKING_INAD, PENDING, 0, {0})
  {
  }

  /** A late answer of Registro Imprese, after the check was skipped, makes a PEC recipient be sent to
      twice: two open attempts, both numbered 1, each with a worker. */
  lemma LateReviewBreaksOrder(s: State)
    requires s == Company(DRAFT, PENDING, 0, {})
    ensures Initial(s)
    ensures var t := ResolveReview(Verify(SkipCheck(Launch(s, Deferred({}, {0}))), 0, true), 0);
      |t.attempts| == 2 && t.attempts[0] == t.attempts[1] && t.attempts[0].number == 1 && Working(t, 0) && Working(t, 1)
  {
    CompanyChecked();
    CompanySkipped();
    CompanyReviewed();
    var t := Company(CampaignStatus.QUEUED, RecipientStatus.QUEUED, 2, {});
    assert Job(Queue(PEC), 0) in t.jobs && Job(Queue(PEC), 1) in t.jobs;
  }
}
