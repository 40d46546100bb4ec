/** What holds of a campaign in every run, whatever the workers and the operators do and in
    whatever order. */
module CampaignSafety {
  import opened Text
  import opened Campaigns

  /** Somebody will still deal with the attempt: a job on its channel's queue, a job for the protocol,
      or the SEND poller. */
  predicate Working(s: State, id: nat) {
    && id < |s.attempts|
    && match s.attempts[id].status
       case QUEUED => HasJob(s, id) || Job(Protocollazione, id) in s.jobs || Pollable(s, id)
       case PROCESSING => HasJob(s, id)
       case _ => false
  }

  predicate Served(s: State, r: nat) {
    exists id :: 0 <= id < |s.attempts| && s.attempts[id].recipient == r && Working(s, id)
  }

  /** A queued recipient has an open attempt with somebody working on it. */
  predicate NoPhantom(s: State) {
    forall r :: 0 <= r < |s.recipients| && s.recipients[r].QUEUED? ==> Served(s, r)
  }

  /** A closed campaign has nobody left to send to. */
  predicate ClosedIsFinished(s: State) {
    !s.isTest && (s.status.COMPLETED? || s.status.FAILED?) ==>
      PENDING !in s.recipients && RecipientStatus.QUEUED !in s.recipients
  }

  /** A SEND campaign has SEND attempts only, as its digital domiciles are never checked. */
  predicate SendOnly(s: State) {
    s.channel == SEND ==> !s.status.CHECKING_INAD? && forall id :: 0 <= id < |s.attempts| ==> s.attempts[id].channel == SEND
  }

  /** Nothing is handed to a channel before it has its protocol, where one is required. */
  predicate ProtocolFirst(s: State) {
    NeedsProtocol(s) ==> forall id :: 0 <= id < |s.attempts| && HasJob(s, id) ==> s.attempts[id].protocol.Some?
  }

  predicate Safe(s: State) {
    WellFormed(s) && NoPhantom(s) && ClosedIsFinished(s) && SendOnly(s) && ProtocolFirst(s)
  }

  /** Every attempt that s had somebody working on still has somebody in t. */
  predicate WorkKept(s: State, t: State) {
    forall id :: 0 <= id < |s.attempts| && Working(s, id) ==>
      Working(t, id) && t.attempts[id].recipient == s.attempts[id].recipient
  }

  lemma KeptServed(s: State, t: State, r: nat)
    requires WorkKept(s, t) && Served(s, r)
    ensures Served(t, r)
  {
  }

  lemma CreatedSafe(s: State, ids: seq<nat>, diverted: set<nat>)
    requires WellFormed(s) && NoPhantom(s) && SendOnly(s) && ProtocolFirst(s)
    requires forall r :: r in ids ==> r < |s.recipients|
    requires s.channel == SEND ==> diverted == {}
    ensures var t := Created(s, ids, diverted); WellFormed(t) && NoPhantom(t) && SendOnly(t) && ProtocolFirst(t)
  {
    CreatedFits(s, ids, diverted);
    var t := Created(s, ids, diverted);
    forall r | 0 <= r < |t.recipients| && t.recipients[r].QUEUED? ensures Served(t, r) {
      if s.recipients[r].QUEUED? {
        KeptServed(s, t, r);
      } else {
        CreatedServes(s, ids, diverted, r);
      }
    }
  }

  lemma CreatedFits(s: State, ids: seq<nat>, diverted: set<nat>)
    requires WellFormed(s) && SendOnly(s) && ProtocolFirst(s)
    requires forall r :: r in ids ==> r < |s.recipients|
    requires s.channel == SEND ==> diverted == {}
    ensures var t := Created(s, ids, diverted); WellFormed(t) && SendOnly(t) && ProtocolFirst(t)
  {
    CreatedWellFormed(s, ids, diverted);
    CreatedSendOnly(s, ids, diverted);
    CreatedProtocol(s, ids, diverted);
  }

  lemma CreatedWellFormed(s: State, ids: seq<nat>, diverted: set<nat>)
    requires WellFormed(s) && forall r :: r in ids ==> r < |s.recipients|
    ensures WellFormed(Created(s, ids, diverted))
  {
    var n, firsts := |s.attempts|, FirstAttempts(s, ids, diverted);
    forall i | 0 <= i < |firsts| ensures firsts[i].recipient < |s.recipients| {
      assert ids[i] in ids;
    }
    CreatedJobsFit(s, ids, diverted);
  }

  lemma CreatedSendOnly(s: State, ids: seq<nat>, diverted: set<nat>)
    requires SendOnly(s) && (s.channel == SEND ==> diverted == {})
    ensures SendOnly(Created(s, ids, diverted))
  {
    var firsts := FirstAttempts(s, ids, diverted);
    assert s.channel == SEND ==> forall i :: 0 <= i < |firsts| ==> firsts[i].channel == SEND;
  }

  lemma CreatedJobsFit(s: State, ids: seq<nat>, diverted: set<nat>)
    requires WellFormed(s)
    ensures var t := Created(s, ids, diverted); forall j :: j in t.jobs ==> j.attempt < |t.attempts|
  {
  }

  lemma CreatedProtocol(s: State, ids: seq<nat>, diverted: set<nat>)
    requires WellFormed(s) && ProtocolFirst(s)
    ensures ProtocolFirst(Created(s, ids, diverted))
  {
  }

  lemma CreatedServes(s: State, ids: seq<nat>, diverted: set<nat>, r: nat)
    requires r in ids
    ensures Served(Created(s, ids, diverted), r)
  {
    var t := Created(s, ids, diverted);
    var i :| 0 <= i < |ids| && ids[i] == r;
    assert IsFirstJob(s, ids, diverted, |ids|, Job(EngineFor(s, r, diverted), |s.attempts| + i));
    assert Working(t, |s.attempts| + i);
  }

  lemma CreatedForPendingSafe(s: State, diverted: set<nat>)
    requires WellFormed(s) && NoPhantom(s) && SendOnly(s) && ProtocolFirst(s) && s.status.QUEUED?
    requires s.channel == SEND ==> diverted == {}
    ensures Safe(CreatedForPending(s, diverted))
  {
    CreatedSafe(s, WithStatus(s.recipients, PENDING), diverted);
  }

  lemma HeldSafe(s: State, review: set<nat>)
    requires WellFormed(s) && NoPhantom(s) && SendOnly(s) && ProtocolFirst(s)
    ensures var t := Held(s, review); WellFormed(t) && NoPhantom(t) && SendOnly(t) && ProtocolFirst(t)
  {
  }

  lemma StatusSafe(s: State, status: CampaignStatus)
    requires NoPhantom(s)
    ensures NoPhantom(ToCampaign(s, status))
  {
  }

  lemma LaunchSafe(s: State, route: Route)
    requires Safe(s)
    ensures Safe(Launch(s, route))
  {
    var q := ToCampaign(s, CampaignStatus.QUEUED);
    StatusSafe(s, CampaignStatus.QUEUED);
    CreatedForPendingSafe(q, {});
    if s.channel != SEND {
      match route
      case Synced(diverted, review) =>
        HeldSafe(q, review);
        CreatedForPendingSafe(Held(q, review), diverted);
      case Deferred(review, companies) =>
        HeldSafe(q, review);
        VerifyingSafe(Held(q, review), companies, CHECKING_INAD);
      case Unreachable(review, companies) =>
        HeldSafe(q, review);
        VerifyingSafe(Held(q, review), companies, DRAFT);
      case _ =>
    }
  }

  lemma VerifyingSafe(s: State, companies: set<nat>, status: CampaignStatus)
    requires WellFormed(s) && NoPhantom(s) && SendOnly(s) && ProtocolFirst(s)
    requires status == DRAFT || (status == CHECKING_INAD && s.channel != SEND)
    ensures Safe(ToCampaign(Verifying(s, companies), status))
  {
  }

  lemma CheckOverSafe(s: State, ready: bool, diverted: set<nat>)
    requires Safe(s)
    ensures Safe(SkipCheck(s)) && Safe(Finalize(s, ready, diverted))
  {
    if s.status.CHECKING_INAD? {
      var q := ToCampaign(s, CampaignStatus.QUEUED);
      StatusSafe(s, CampaignStatus.QUEUED);
      CreatedForPendingSafe(q, {});
      CreatedForPendingSafe(q, diverted);
    }
  }

  lemma TestSendSafe(s: State, blocked: bool, diverted: bool)
    requires Safe(s)
    ensures Safe(TestSend(s, blocked, diverted))
  {
    var r := |s.recipients|;
    var t := s.(recipients := s.recipients + [PENDING]);
    forall k | 0 <= k < |t.recipients| && t.recipients[k].QUEUED? ensures Served(t, k) {
      KeptServed(s, t, k);
    }
    CreatedSafe(t, [r], if diverted && s.channel != SEND then {r} else {});
  }

  lemma CancelSafe(s: State, locked: set<nat>)
    requires Safe(s)
    ensures Safe(Cancel(s, locked))
  {
    var t := Cancel(s, locked);
    forall r | 0 <= r < |t.recipients| && t.recipients[r].QUEUED? ensures Served(t, r) {
      if t != s {
        var id :| 0 <= id < |s.attempts| && s.attempts[id].recipient == r && Working(s, id);
        assert !TakenBack(s, id, locked);
        assert Working(t, id);
      }
    }
  }

  lemma ForcedSafe(s: State, r: nat)
    requires Safe(s) && r < |s.recipients|
    ensures Safe(Forced(s, r))
  {
  }

  lemma ReopenedSafe(s: State)
    requires WellFormed(s) && NoPhantom(s) && SendOnly(s) && ProtocolFirst(s)
    ensures Safe(Reopened(s))
  {
  }

  lemma RetrySafe(s: State, r: nat)
    requires Safe(s)
    ensures Safe(Retry(s, r))
  {
    if Retriable(s, r) {
      var t := Requeued(s, r);
      RetryFits(s, t, r);
      forall k | 0 <= k < |t.recipients| && t.recipients[k].QUEUED? ensures Served(t, k) {
        if k != r {
          KeptServed(s, t, k);
        }
      }
      ReopenedSafe(t);
    }
  }

  /** The new attempt is in bounds, has somebody working on it, and its protocol if it needs one. */
  /** The recipient is queued, somebody works on it, and the campaign is not closed. */
  predicate InHand(s: State, r: nat) {
    r < |s.recipients| && s.recipients[r].QUEUED? && Served(s, r) && !s.status.COMPLETED? && !s.status.FAILED?
  }

  lemma CorrectAddressServes(s: State, r: nat, acceptable: bool)
    requires Safe(s) && (s.channel == POSTAL || s.channel == SEND) && acceptable && r < |s.recipients| && !s.status.CANCELLED?
    ensures InHand(CorrectAddress(s, r, acceptable), r)
  {
    ForcedSafe(s, r);
    RetryServes(Forced(s, r), r);
  }

  lemma ResolveReviewServes(s: State, r: nat)
    requires r < |s.recipients| && s.recipients[r].PENDING_REVIEW?
    ensures InHand(ResolveReview(s, r), r)
    ensures ResolveReview(s, r).attempts == s.attempts + [Attempt(r, s.channel, AttemptStatus.QUEUED, 1, None, "")]
  {
    var p := s.(recipients := s.recipients[r := PENDING]);
    CreatedServes(p, [r], {}, r);
    var id :| 0 <= id < |Created(p, [r], {}).attempts| && Created(p, [r], {}).attempts[id].recipient == r && Working(Created(p, [r], {}), id);
    assert Working(ResolveReview(s, r), id);
  }

  lemma RetryServes(s: State, r: nat)
    requires Safe(s) && Retriable(s, r)
    ensures InHand(Retry(s, r), r)
  {
    RetryFits(s, Requeued(s, r), r);
    var id :| 0 <= id < |Requeued(s, r).attempts| && Requeued(s, r).attempts[id].recipient == r && Working(Requeued(s, r), id);
    assert Working(Retry(s, r), id);
  }

  lemma RetryFits(s: State, t: State, r: nat)
    requires Safe(s) && Retriable(s, r) && t == Requeued(s, r)
    ensures WellFormed(t) && SendOnly(t) && ProtocolFirst(t)
    ensures Served(t, r)
  {
    assert t.attempts[|s.attempts|].recipient == r && Working(t, |s.attempts|);
    forall id | 0 <= id < |t.attempts| && NeedsProtocol(t) && HasJob(t, id) ensures t.attempts[id].protocol.Some? {
      assert id < |s.attempts| ==> HasJob(s, id);
    }
  }

  lemma ResolveReviewSafe(s: State, r: nat)
    requires Safe(s)
    ensures Safe(ResolveReview(s, r))
  {
    if r < |s.recipients| && s.recipients[r].PENDING_REVIEW? {
      var p := s.(recipients := s.recipients[r := PENDING]);
      forall k | 0 <= k < |p.recipients| && p.recipients[k].QUEUED? ensures Served(p, k) {
        KeptServed(s, p, k);
      }
      CreatedSafe(p, [r], {});
      ReopenedSafe(Created(p, [r], {}));
    }
  }

  lemma CorrectAddressSafe(s: State, r: nat, acceptable: bool)
    requires Safe(s)
    ensures Safe(CorrectAddress(s, r, acceptable))
  {
    if r < |s.recipients| {
      ForcedSafe(s, r);
      RetrySafe(Forced(s, r), r);
    }
  }

  lemma SignatureSafe(s: State, resentWith: map<nat, string>, content: string)
    requires Safe(s)
    ensures Safe(s.(resentWith := resentWith, content := content))
  {
  }

  lemma ResendSafe(s: State, r: nat, appIoDelivered: bool)
    requires Safe(s)
    ensures Safe(Resend(s, r, appIoDelivered))
  {
    SignatureSafe(s, s.resentWith[r := s.content], s.content);
    if r < |s.recipients| {
      ForcedSafe(s, r);
      var t := Retry(Forced(s, r), r);
      RetrySafe(Forced(s, r), r);
      SignatureSafe(t, s.resentWith[r := s.content], t.content);
    }
  }

  lemma AttachSafe(s: State, r: nat, number: nat, idPro: string, valid: bool)
    requires Safe(s)
    ensures Safe(Attach(s, r, number, idPro, valid))
  {
    var t := Attach(s, r, number, idPro, valid);
    forall k | 0 <= k < |t.recipients| && t.recipients[k].QUEUED? ensures Served(t, k) {
      KeptServed(s, t, k);
    }
  }

  lemma CheckAndCompleteSafe(s: State)
    requires WellFormed(s) && NoPhantom(s) && SendOnly(s) && ProtocolFirst(s)
    requires ClosedIsFinished(s)
    ensures Safe(CheckAndComplete(s))
  {
  }

  /** The end of a sending leaves nobody else without a worker: only the attempt's own recipient moves. */
  lemma SettledSafe(s: State, t: State, id: nat, ok: bool)
    requires Safe(s) && id < |s.attempts| && WellFormed(t) && ProtocolFirst(t)
    requires t == s.(jobs := t.jobs, resentWith := t.resentWith)
    requires forall j :: j in s.jobs && j.attempt != id ==> j in t.jobs
    ensures Safe(Settled(t, id, ok))
  {
    var u := Ended(t, id, ok);
    forall k | 0 <= k < |u.recipients| && u.recipients[k].QUEUED? ensures Served(u, k) {
      var i :| 0 <= i < |s.attempts| && s.attempts[i].recipient == k && Working(s, i);
      assert i != id && u.attempts[i] == s.attempts[i];
      assert Working(u, i);
    }
    assert forall k :: 0 <= k < |u.recipients| && u.recipients[k].QUEUED? ==> s.recipients[k].QUEUED?;
    EndedClosed(s, t, id, ok);
    CheckAndCompleteSafe(u);
  }

  lemma EndedClosed(s: State, t: State, id: nat, ok: bool)
    requires Safe(s) && id < |s.attempts| && WellFormed(t) && ProtocolFirst(t)
    requires t == s.(jobs := t.jobs, resentWith := t.resentWith)
    ensures ClosedIsFinished(Ended(t, id, ok)) && SendOnly(Ended(t, id, ok)) && ProtocolFirst(Ended(t, id, ok))
    ensures WellFormed(Ended(t, id, ok))
  {
  }

  lemma WorkerStartSafe(s: State, id: nat)
    requires Safe(s)
    ensures Safe(WorkerStart(s, id))
  {
    var t := WorkerStart(s, id);
    forall k | 0 <= k < |t.recipients| && t.recipients[k].QUEUED? ensures Served(t, k) {
      KeptServed(s, t, k);
    }
  }

  lemma WorkerFinishSafe(s: State, id: nat, ok: bool, appIo: bool)
    requires Safe(s)
    ensures Safe(WorkerFinish(s, id, ok, appIo))
  {
    if HasJob(s, id) {
      var a := s.attempts[id];
      var t := s.(jobs := s.jobs - {Job(Queue(a.channel), id)});
      if a.status.SUCCESS? {
        forall k | 0 <= k < |t.recipients| && t.recipients[k].QUEUED? ensures Served(t, k) {
          KeptServed(s, t, k);
        }
      } else {
        SettledSafe(s, if appIo then t.(resentWith := t.resentWith[a.recipient := t.content]) else t, id, ok);
      }
    }
  }

  lemma ProtocolSafe(s: State, id: nat, answer: ProtocolAnswer)
    requires Safe(s)
    ensures Safe(Protocol(s, id, answer))
  {
    if Job(Protocollazione, id) in s.jobs {
      var a := s.attempts[id];
      var t := s.(jobs := s.jobs - {Job(Protocollazione, id)});
      if a.status.QUEUED? && answer == Refused {
        SettledSafe(s, t, id, false);
      } else {
        var u := Protocol(s, id, answer);
        forall k | 0 <= k < |u.recipients| && u.recipients[k].QUEUED? ensures Served(u, k) {
          KeptServed(s, u, k);
        }
      }
    }
  }

  lemma PollSafe(s: State, id: nat, ok: bool)
    requires Safe(s)
    ensures Safe(Poll(s, id, ok))
  {
    if Pollable(s, id) {
      SettledSafe(s, s, id, ok);
    }
  }

  lemma VerifySafe(s: State, r: nat, differs: bool)
    requires Safe(s)
    ensures Safe(Verify(s, r, differs))
  {
  }

  lemma StepSafe(s: State, e: Event)
    requires Safe(s)
    ensures Safe(Step(s, e))
  {
    match e
    case DoLaunch(route) => LaunchSafe(s, route);
    case DoFinalize(ready, diverted) => CheckOverSafe(s, ready, diverted);
    case DoSkip => CheckOverSafe(s, false, {});
    case DoTestSend(blocked, toPec) => TestSendSafe(s, blocked, toPec);
    case DoCancel(locked) => CancelSafe(s, locked);
    case DoRetry(r) => RetrySafe(s, r);
    case DoCorrectAddress(r, acceptable) => CorrectAddressSafe(s, r, acceptable);
    case DoResolveReview(r) => ResolveReviewSafe(s, r);
    case DoResend(r, appIoDelivered) => ResendSafe(s, r, appIoDelivered);
    case DoAttach(r, number, idPro, valid) => AttachSafe(s, r, number, idPro, valid);
    case ContentChanged(content) => SignatureSafe(s, s.resentWith, content);
    case WorkerStarts(id) => WorkerStartSafe(s, id);
    case WorkerFinishes(id, ok, appIo) => WorkerFinishSafe(s, id, ok, appIo);
    case ProtocolAnswers(id, answer) => ProtocolSafe(s, id, answer);
    case Polled(id, ok) => PollSafe(s, id, ok);
    case Verified(r, differs) => VerifySafe(s, r, differs);
  }

  /** Where a campaign is after any events whatever. In every run: no phantom queued recipient, no
      closed campaign with work left, nothing handed to a channel before its protocol. */
  function Run(s: State, events: seq<Event>): (t: State)
    requires Initial(s)
    ensures Safe(t)
  {
    if events == [] then s
    else
      var before := Run(s, events[..|events| - 1]);
      StepSafe(before, events[|events| - 1]);
      Step(before, events[|events| - 1])
  }

  // ------------------------------------------------------------- single operations

  /** Every recipient of a launch gets one attempt, and that attempt one job, carrying its id, on the
      protocol queue or on the queue of the recipient's own channel. */
  lemma OneJobEach(s: State, ids: seq<nat>, diverted: set<nat>, i: nat, e: Engine)
    requires WellFormed(s) && i < |ids|
    ensures var t, id := Created(s, ids, diverted), |s.attempts| + i;
      && |t.attempts| == |s.attempts| + |ids|
      && t.attempts[id].recipient == ids[i]
      && t.attempts[id].channel == (if ids[i] in diverted then PEC else s.channel)
      && (Job(e, id) in t.jobs <==> e == if s.channel == SEND || s.protocolla then Protocollazione else Queue(t.attempts[id].channel))
  {
  }

  /** A content correction is sent again once: asking twice does nothing the second time. */
  lemma ResendTwice(s: State, r: nat, first: bool, second: bool)
    ensures var t := Resend(s, r, first); t != s ==> Resend(t, r, second) == t
  {
    var t := Resend(s, r, first);
    if t != s {
      assert r in t.resentWith && t.resentWith[r] == t.content;
    }
  }

  /** The recipient has a postal attempt of that number, still without an id. */
  predicate Attachable(s: State, r: nat, number: nat) {
    var id := AttemptNumbered(s.attempts, r, number);
    r < |s.recipients| && id.Some? && s.attempts[id.value].tracking == ""
  }

  /** An id that GlobalCom refuses is saved all the same, exactly when one could be attached; and then no
      other id ever can. */
  lemma RefusedIdSticks(s: State, r: nat, number: nat, idPro: string, other: string, valid: bool)
    ensures Attach(s, r, number, idPro, false) != s <==> idPro != "" && Attachable(s, r, number)
    ensures idPro != "" && Attachable(s, r, number) ==>
      var t := Attach(s, r, number, idPro, false); Attach(t, r, number, other, valid) == t && !Attachable(t, r, number)
  {
    if idPro != "" && Attachable(s, r, number) {
      var id := AttemptNumbered(s.attempts, r, number).value;
      NumberedKept(s.attempts, id, s.attempts[id].(tracking := idPro), r, number);
      assert Attach(s, r, number, idPro, false).attempts[id].tracking != s.attempts[id].tracking;
    }
  }

  lemma {:induction false} NumberedKept(attempts: seq<Attempt>, id: nat, a: Attempt, r: nat, number: nat)
    requires id < |attempts| && a == attempts[id].(tracking := a.tracking)
    ensures AttemptNumbered(attempts[id := a], r, number) == AttemptNumbered(attempts, r, number)
  {
    var n := |attempts| - 1;
    if id < n {
      NumberedKept(attempts[..n], id, a, r, number);
      assert attempts[id := a][..n] == attempts[..n][id := a];
    } else {
      assert attempts[id := a][..n] == attempts[..n];
    }
  }

  /** Correcting an address in a cancelled campaign sends nothing, yet moves somebody, to failed, exactly when the
      address is accepted and he was not failed already. */
  lemma CorrectionAfterCancel(s: State, r: nat, acceptable: bool)
    requires s.status.CANCELLED?
    ensures var t := CorrectAddress(s, r, acceptable);
      && t.attempts == s.attempts && t.jobs == s.jobs
      && (t.recipients != s.recipients <==>
            acceptable && (s.channel == POSTAL || s.channel == SEND) && r < |s.recipients| && !s.recipients[r].FAILED?)
      && (t.recipients != s.recipients ==> t.recipients == s.recipients[r := RecipientStatus.FAILED])
  {
  }

  /** A cancelled campaign still sends to somebody new exactly when a review is resolved in it, or a test send
      asked of a test campaign. */
  lemma SentAfterCancel(s: State, e: Event)
    requires WellFormed(s) && s.status.CANCELLED?
    ensures |Step(s, e).attempts| > |s.attempts| <==>
      (e.DoResolveReview? && e.r < |s.recipients| && s.recipients[e.r].PENDING_REVIEW?) || (e.DoTestSend? && s.isTest && !e.blocked)
  {
    if ByWorker(e) {
      WorkersOpenNothing(s, e);
    }
  }

  predicate ByWorker(e: Event) {
    e.WorkerStarts? || e.WorkerFinishes? || e.ProtocolAnswers? || e.Polled? || e.Verified?
  }

  lemma WorkersOpenNothing(s: State, e: Event)
    requires WellFormed(s) && ByWorker(e)
    ensures |Step(s, e).attempts| == |s.attempts|
  {
    match e
    case WorkerFinishes(id, ok, appIo) =>
      if HasJob(s, id) {
        var a := s.attempts[id];
        var t := s.(jobs := s.jobs - {Job(Queue(a.channel), id)});
        SettledOpensNothing(if appIo then t.(resentWith := t.resentWith[a.recipient := t.content]) else t, id, ok);
      }
    case ProtocolAnswers(id, answer) =>
      if Job(Protocollazione, id) in s.jobs {
        SettledOpensNothing(s.(jobs := s.jobs - {Job(Protocollazione, id)}), id, false);
      }
    case Polled(id, ok) =>
      if Pollable(s, id) {
        SettledOpensNothing(s, id, ok);
      }
    case _ =>
  }

  lemma SettledOpensNothing(s: State, id: nat, ok: bool)
    requires id < |s.attempts| && s.attempts[id].recipient < |s.recipients|
    ensures |Settled(s, id, ok).attempts| == |s.attempts|
  {
  }

  /** Everybody pending is a company that waits for the operator. */
  predicate AllHeldBack(s: State, route: Route) {
    route.Synced? && s.channel == PEC && forall r :: 0 <= r < |s.recipients| && s.recipients[r].PENDING? ==> r in route.review
  }

  /** A launch leaves the campaign queued with nothing to send exactly when nobody is pending, or when all who are
      are held back. */
  lemma LaunchOfNobody(s: State, route: Route)
    requires s.status.DRAFT?
    ensures Launch(s, route).status.QUEUED? && Launch(s, route).attempts == s.attempts
      <==> !route.Blocked? && (PENDING !in s.recipients || AllHeldBack(s, route))
  {
    var q := ToCampaign(s, CampaignStatus.QUEUED);
    if !route.Blocked? && PENDING in s.recipients {
      LaunchedNobody(q, route);
    }
  }

  lemma LaunchedNobody(q: State, route: Route)
    requires q.status.QUEUED? && !route.Blocked? && PENDING in q.recipients
    ensures Launched(q, route).status.QUEUED? && Launched(q, route).attempts == q.attempts <==> AllHeldBack(q, route)
  {
    if q.channel == SEND || route.Direct? {
      SomebodyCreated(q, {});
    } else if route.Synced? {
      SomebodyCreated(Held(q, route.review), route.diverted);
      SomebodyLeft(q, route);
    }
  }

  lemma SomebodyCreated(s: State, diverted: set<nat>)
    ensures CreatedForPending(s, diverted).attempts == s.attempts <==> PENDING !in s.recipients
  {
    var ids := WithStatus(s.recipients, PENDING);
    if PENDING in s.recipients {
      var r :| 0 <= r < |s.recipients| && s.recipients[r] == PENDING;
      assert r in ids;
    }
    assert |ids| > 0 ==> ids[0] in ids;
    assert |CreatedForPending(s, diverted).attempts| == |s.attempts| + |ids|;
  }

  lemma SomebodyLeft(s: State, route: Route)
    requires route.Synced?
    ensures PENDING !in Held(s, route.review).recipients <==> PENDING !in s.recipients || AllHeldBack(s, route)
  {
    var h := Held(s, route.review);
    if r :| 0 <= r < |s.recipients| && s.recipients[r].PENDING? && !(s.channel == PEC && r in route.review) {
      assert h.recipients[r].PENDING?;
    }
  }
}
