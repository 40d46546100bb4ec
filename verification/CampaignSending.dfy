/** Who is sent to, on which channel and by which queue: what launching, finalizing, skipping, cancelling,
    resending and completing do to recipients, attempts and jobs, one by one. */
module CampaignSending {
  import opened Text
  import opened Campaigns
  import opened CampaignSafety

  function PendingOf(recipients: seq<RecipientStatus>): set<nat> {
    set r | 0 <= r < |recipients| && recipients[r].PENDING?
  }

  /** Every recipient named gets exactly one new attempt, its first, queued: on PEC if diverted, else on the
      campaign's own channel. Nobody else gets any, and the earlier attempts stay. */
  predicate SentOnce(olds: seq<Attempt>, news: seq<Attempt>, own: Channel, recipients: set<nat>, toPec: set<nat>) {
    && olds <= news && |news| == |olds| + |recipients|
    && (forall r :: r in recipients ==> exists i :: |olds| <= i < |news| && news[i].recipient == r)
    && (forall i :: |olds| <= i < |news| ==> news[i].recipient in recipients)
    && (forall i :: |olds| <= i < |news| ==>
         news[i] == Attempt(news[i].recipient, if news[i].recipient in toPec then PEC else own, AttemptStatus.QUEUED, 1, None, ""))
    && (forall i, j :: |olds| <= i < j < |news| ==> news[i].recipient != news[j].recipient)
  }

  /** The new jobs: one for each new attempt, on the protocol queue for SEND and where a protocol is asked for, else on
      the queue of the attempt's channel. */
  ghost predicate QueuedOnce(was: State, now: State) {
    NewJobsOnly(was, now) && JobEach(was, now)
  }

  predicate NewJobsOnly(was: State, now: State) {
    was.jobs <= now.jobs && forall j :: j in now.jobs && j !in was.jobs ==> |was.attempts| <= j.attempt < |now.attempts|
  }

  ghost predicate JobEach(was: State, now: State) {
    forall i, e :: |was.attempts| <= i < |now.attempts| ==> IsItsJob(was, now, i, e)
  }

  /** The named recipients are queued, the others as before. */
  predicate QueuedAre(before: seq<RecipientStatus>, after: seq<RecipientStatus>, recipients: set<nat>) {
    |after| == |before|
    && forall r :: 0 <= r < |before| ==> after[r] == if r in recipients then RecipientStatus.QUEUED else before[r]
  }

  /** All of it. */
  ghost predicate Sends(was: State, now: State, recipients: set<nat>, toPec: set<nat>) {
    && SentOnce(was.attempts, now.attempts, was.channel, recipients, toPec)
    && (WellFormed(was) ==> QueuedOnce(was, now))
    && QueuedAre(was.recipients, now.recipients, recipients)
  }

  predicate NoRepeats(ids: seq<nat>) {
    forall i, j :: 0 <= i < j < |ids| ==> ids[i] != ids[j]
  }

  function Listed(ids: seq<nat>): set<nat> {
    set r | r in ids
  }

  lemma {:induction false} ListedSize(ids: seq<nat>)
    requires NoRepeats(ids)
    ensures |Listed(ids)| == |ids|
  {
    if ids != [] {
      var n := |ids| - 1;
      ListedSize(ids[..n]);
      assert ids == ids[..n] + [ids[n]];
      assert Listed(ids) == Listed(ids[..n]) + {ids[n]} && ids[n] !in ids[..n];
    }
  }

  lemma CreatedSentOnce(s: State, ids: seq<nat>, diverted: set<nat>)
    requires NoRepeats(ids)
    ensures SentOnce(s.attempts, Created(s, ids, diverted).attempts, s.channel, Listed(ids), diverted)
  {
    var n, firsts, news := |s.attempts|, FirstAttempts(s, ids, diverted), Created(s, ids, diverted).attempts;
    ListedSize(ids);
    assert forall i :: n <= i < |news| ==> news[i] == firsts[i - n] == FirstAttempt(s, ids[i - n], diverted);
    forall r | r in Listed(ids) ensures exists i :: n <= i < |news| && news[i].recipient == r {
      var k :| 0 <= k < |ids| && ids[k] == r;
      assert news[n + k].recipient == r;
    }
    forall i | n <= i < |news| ensures news[i].recipient in Listed(ids) {
      assert ids[i - n] in ids;
    }
  }

  lemma NewJobs(s: State, ids: seq<nat>, diverted: set<nat>)
    ensures NewJobsOnly(s, Created(s, ids, diverted))
  {
  }

  lemma JobForEach(s: State, ids: seq<nat>, diverted: set<nat>)
    requires WellFormed(s)
    ensures JobEach(s, Created(s, ids, diverted))
  {
    var t := Created(s, ids, diverted);
    forall i, e | |s.attempts| <= i < |t.attempts| ensures IsItsJob(s, t, i, e) {
      JobOf(s, ids, diverted, i, e);
    }
  }

  predicate IsItsJob(was: State, now: State, i: nat, e: Engine)
    requires i < |now.attempts|
  {
    Job(e, i) in now.jobs <==> e == if was.channel == SEND || was.protocolla then Protocollazione else Queue(now.attempts[i].channel)
  }

  lemma JobOf(s: State, ids: seq<nat>, diverted: set<nat>, i: nat, e: Engine)
    requires WellFormed(s) && |s.attempts| <= i < |s.attempts| + |ids|
    ensures IsItsJob(s, Created(s, ids, diverted), i, e)
  {
    OneJobEach(s, ids, diverted, i - |s.attempts|, e);
  }

  lemma CreatedQueuedOnce(s: State, ids: seq<nat>, diverted: set<nat>)
    requires WellFormed(s)
    ensures QueuedOnce(s, Created(s, ids, diverted))
  {
    NewJobs(s, ids, diverted);
    JobForEach(s, ids, diverted);
  }

  lemma CreatedSends(s: State, ids: seq<nat>, diverted: set<nat>)
    requires NoRepeats(ids) && forall r :: r in ids ==> r < |s.recipients| && s.recipients[r].PENDING?
    ensures Sends(s, Created(s, ids, diverted), Listed(ids), diverted)
  {
    CreatedSentOnce(s, ids, diverted);
    if WellFormed(s) {
      CreatedQueuedOnce(s, ids, diverted);
    }
  }

  lemma PendingSends(s: State, diverted: set<nat>)
    ensures Sends(s, CreatedForPending(s, diverted), PendingOf(s.recipients), diverted)
  {
    var ids := WithStatus(s.recipients, PENDING);
    assert NoRepeats(ids);
    assert Listed(ids) == PendingOf(s.recipients);
    CreatedSends(s, ids, diverted);
  }

  /** The campaign's status does not matter to who is sent to; nor who is diverted, in a PEC campaign. */
  lemma SendsAlike(was: State, status: CampaignStatus, now: State, recipients: set<nat>, toPec: set<nat>)
    requires Sends(ToCampaign(was, status), now, recipients, toPec)
    ensures Sends(was, now, recipients, toPec)
  {
    var q := ToCampaign(was, status);
    assert WellFormed(was) ==> WellFormed(q);
    assert forall i, e :: |was.attempts| <= i < |now.attempts| ==> (IsItsJob(was, now, i, e) <==> IsItsJob(q, now, i, e));
  }

  lemma PecEitherWay(was: State, now: State, recipients: set<nat>, diverted: set<nat>)
    requires was.channel == PEC && Sends(was, now, recipients, {})
    ensures Sends(was, now, recipients, diverted)
  {
  }

  // ------------------------------------------------------------- launch, finalize, skip, test send

  /** Finalizing sends to whoever is pending, and to the diverted on PEC: exactly then it leaves the check. */
  lemma FinalizeSends(s: State, ready: bool, diverted: set<nat>)
    ensures var t := Finalize(s, ready, diverted);
      if s.status == CHECKING_INAD && ready && s.verifying == {} then
        t.status == CampaignStatus.QUEUED && Sends(s, t, PendingOf(s.recipients), diverted)
      else t == s
  {
    var q := ToCampaign(s, CampaignStatus.QUEUED);
    if s.status == CHECKING_INAD && ready && s.verifying == {} {
      var toPec := if s.channel == PEC then {} else diverted;
      PendingSends(q, toPec);
      SendsAlike(s, CampaignStatus.QUEUED, CreatedForPending(q, toPec), PendingOf(s.recipients), toPec);
      if s.channel == PEC {
        PecEitherWay(s, CreatedForPending(q, toPec), PendingOf(s.recipients), diverted);
      }
    }
  }

  lemma SkipSends(s: State)
    ensures var t := SkipCheck(s);
      if s.status == CHECKING_INAD then t.status == CampaignStatus.QUEUED && Sends(s, t, PendingOf(s.recipients), {}) else t == s
  {
    if s.status == CHECKING_INAD {
      var q := ToCampaign(s, CampaignStatus.QUEUED);
      PendingSends(q, {});
      SendsAlike(s, CampaignStatus.QUEUED, CreatedForPending(q, {}), PendingOf(s.recipients), {});
    }
  }

  /** The companies that a PEC campaign holds back. */
  function HeldOf(s: State, review: set<nat>): set<nat> {
    if s.channel == PEC then set r | r in PendingOf(s.recipients) && r in review else {}
  }

  predicate HeldAre(before: seq<RecipientStatus>, after: seq<RecipientStatus>, held: set<nat>) {
    |after| == |before| && forall r :: 0 <= r < |before| ==> after[r] == if r in held then PENDING_REVIEW else before[r]
  }

  lemma HeldIs(s: State, review: set<nat>)
    ensures HeldAre(s.recipients, Held(s, review).recipients, HeldOf(s, review))
    ensures PendingOf(Held(s, review).recipients) == PendingOf(s.recipients) - HeldOf(s, review)
  {
    var h := Held(s, review);
    forall r | 0 <= r < |s.recipients|
      ensures h.recipients[r] == (if r in HeldOf(s, review) then PENDING_REVIEW else s.recipients[r])
    {
      assert h.recipients[r] == HeldStatus(s, r, review);
    }
  }

  /** A draft launched with somebody pending, route by route. */
  ghost predicate Launches(s: State, t: State, route: Route) {
    match route
    case Blocked => t == s
    case Synced(diverted, review) =>
      && t.status == CampaignStatus.QUEUED
      && if s.channel == SEND then Sends(s, t, PendingOf(s.recipients), {})
         else
           && SentOnce(s.attempts, t.attempts, s.channel, PendingOf(s.recipients) - HeldOf(s, review), diverted)
           && |t.recipients| == |s.recipients|
           && forall r :: 0 <= r < |s.recipients| ==>
                t.recipients[r] == if r in HeldOf(s, review) then PENDING_REVIEW else if s.recipients[r].PENDING? then RecipientStatus.QUEUED else s.recipients[r]
    case Direct => t.status == CampaignStatus.QUEUED && Sends(s, t, PendingOf(s.recipients), {})
    case Deferred(review, companies) =>
      if s.channel == SEND then t.status == CampaignStatus.QUEUED && Sends(s, t, PendingOf(s.recipients), {})
      else t.status == CHECKING_INAD && Waits(s, t, review, companies)
    case Unreachable(review, companies) =>
      if s.channel == SEND then t.status == CampaignStatus.QUEUED && Sends(s, t, PendingOf(s.recipients), {})
      else t.status == DRAFT && Waits(s, t, review, companies)
  }

  /** Nothing is sent yet; companies are being verified. */
  ghost predicate Waits(s: State, t: State, review: set<nat>, companies: set<nat>) {
    && t.attempts == s.attempts && t.jobs == s.jobs && HeldAre(s.recipients, t.recipients, HeldOf(s, review))
    && forall r: nat :: r in t.verifying <==> r in s.verifying || (r in companies && r < |s.recipients|)
  }

  ghost predicate LaunchesAs(s: State, t: State, route: Route) {
    if s.status != DRAFT then t == s
    else if PENDING !in s.recipients && !route.Blocked? then t == s.(status := CampaignStatus.QUEUED)
    else Launches(s, t, route)
  }

  lemma LaunchSends(s: State, route: Route)
    ensures LaunchesAs(s, Launch(s, route), route)
  {
    var q := ToCampaign(s, CampaignStatus.QUEUED);
    if s.status == DRAFT && PENDING in s.recipients && !route.Blocked? {
      LaunchedSends(q, route);
      LaunchesAlike(s, Launched(q, route), route);
      assert Launch(s, route) == Launched(q, route);
    }
  }

  lemma LaunchesAlike(s: State, t: State, route: Route)
    requires !route.Blocked? && Launches(ToCampaign(s, CampaignStatus.QUEUED), t, route)
    ensures Launches(s, t, route)
  {
    if s.channel == SEND || route.Direct? {
      SendsAlike(s, CampaignStatus.QUEUED, t, PendingOf(s.recipients), {});
    }
  }

  lemma LaunchedSends(q: State, route: Route)
    requires !route.Blocked?
    requires q.status == CampaignStatus.QUEUED
    ensures Launches(q, Launched(q, route), route)
  {
    if q.channel == SEND || route.Direct? {
      PendingSends(q, {});
    } else if route.Synced? {
      HeldIs(q, route.review);
      PendingSends(Held(q, route.review), route.diverted);
    } else {
      HeldIs(q, route.review);
    }
  }

  /** A test send queues one recipient more, and nobody else. */
  lemma TestSendSends(s: State, blocked: bool, diverted: bool)
    ensures var t, r := TestSend(s, blocked, diverted), |s.recipients|;
      if s.isTest && !blocked then
        && t.recipients == s.recipients + [RecipientStatus.QUEUED]
        && t.attempts == s.attempts + [Attempt(r, if diverted && s.channel != SEND then PEC else s.channel, AttemptStatus.QUEUED, 1, None, "")]
      else t == s
  {
  }

  // ------------------------------------------------------------- cancel

  /** The attempt's job can still be taken back. */
  predicate StillWaiting(s: State, id: nat, locked: set<nat>) {
    && id < |s.attempts| && s.attempts[id].status == AttemptStatus.QUEUED
    && s.attempts[id].recipient < |s.recipients| && s.recipients[s.attempts[id].recipient] == RecipientStatus.QUEUED
    && (s.channel == SEND || (Job(Queue(s.channel), id) in s.jobs && id !in locked))
  }

  predicate JobTakenBack(s: State, j: Job, locked: set<nat>) {
    StillWaiting(s, j.attempt, locked) && j.attempt !in locked
    && j.engine == if s.channel == SEND then Protocollazione else Queue(s.channel)
  }

  /** What cancelling does to each attempt, recipient and job of a queued or checking campaign: whoever is pending is
      out; a queued recipient is out exactly when one of its attempts is taken back; nobody else is touched. */
  predicate Cancels(s: State, t: State, locked: set<nat>) {
    && t.status == CampaignStatus.CANCELLED && |t.attempts| == |s.attempts| && |t.recipients| == |s.recipients|
    && (forall id :: 0 <= id < |s.attempts| ==>
         t.attempts[id] == if StillWaiting(s, id, locked) then s.attempts[id].(status := AttemptStatus.CANCELLED) else s.attempts[id])
    && (forall r :: 0 <= r < |s.recipients| ==> CancelledOr(s, t, locked, r))
    && (forall j :: j in t.jobs ==> j in s.jobs) && (forall j :: j in s.jobs ==> (j in t.jobs <==> !JobTakenBack(s, j, locked)))
  }

  lemma CancelEach(s: State, locked: set<nat>)
    ensures if s.status == CampaignStatus.QUEUED || s.status == CHECKING_INAD then Cancels(s, Cancel(s, locked), locked)
      else Cancel(s, locked) == s
  {
    assert forall id: nat :: StillWaiting(s, id, locked) <==> TakenBack(s, id, locked);
  }

  predicate CancelledOr(s: State, t: State, locked: set<nat>, r: nat)
    requires r < |s.recipients| == |t.recipients|
  {
    match s.recipients[r]
    case PENDING => t.recipients[r] == RecipientStatus.CANCELLED
    case QUEUED => t.recipients[r] ==
      if exists id :: 0 <= id < |s.attempts| && s.attempts[id].recipient == r && StillWaiting(s, id, locked)
      then RecipientStatus.CANCELLED else RecipientStatus.QUEUED
    case _ => t.recipients[r] == s.recipients[r]
  }

  // ------------------------------------------------------------- sending again

  /** One attempt more, on the channel of the recipient's last one and with the next number; the recipient is queued,
      nobody else moves, and a closed campaign opens. */
  predicate SentAgain(s: State, t: State, r: nat) {
    var last, n := LastOf(s.attempts, r), |s.attempts|;
    && r < |s.recipients| && t.recipients == s.recipients[r := RecipientStatus.QUEUED]
    && |t.attempts| == n + 1 && t.attempts[..n] == s.attempts
    && t.attempts[n] == Attempt(r, if last.Some? then s.attempts[last.value].channel else s.channel, AttemptStatus.QUEUED,
         if last.Some? then s.attempts[last.value].number + 1 else 1, t.attempts[n].protocol, "")
    && t.status == if s.status in {COMPLETED, CampaignStatus.FAILED} then CampaignStatus.QUEUED else s.status
  }

  /** Its job: an attempt that needs a protocol and has none goes to the protocol queue, any other to the queue of its
      channel, but to none when SEND already has its protocol. */
  predicate JobAgain(s: State, t: State)
    requires |t.attempts| == |s.attempts| + 1
  {
    var n := |s.attempts|;
    var a := t.attempts[n];
    t.jobs == s.jobs +
      if a.protocol.None? && (s.protocolla || a.channel == SEND) then {Job(Protocollazione, n)}
      else if a.channel == SEND then {}
      else {Job(Queue(a.channel), n)}
  }

  /** A retry does so exactly for somebody failed in a campaign not cancelled, who then counts as failed no more. */
  lemma RetryEach(s: State, r: nat)
    ensures var t := Retry(s, r);
      if s.status != CampaignStatus.CANCELLED && r < |s.recipients| && s.recipients[r] == RecipientStatus.FAILED then
        SentAgain(s, t, r) && JobAgain(s, t) && t.failedCount == s.failedCount - 1 && t.sentCount == s.sentCount
      else t == s
  {
    if Retriable(s, r) {
      var q, a := Requeued(s, r), NextAttempt(s, r);
      assert q.attempts == s.attempts + [a] && q.jobs == s.jobs + RetryJobs(s, a);
    }
  }

  /** A forced correction does so for anybody, in a POSTAL or SEND campaign not cancelled, when the address is accepted. */
  lemma CorrectAddressEach(s: State, r: nat, acceptable: bool)
    ensures var t := CorrectAddress(s, r, acceptable);
      if (s.channel == POSTAL || s.channel == SEND) && acceptable && r < |s.recipients| && s.status != CampaignStatus.CANCELLED then
        && SentAgain(s, t, r) && JobAgain(s, t)
        && t.sentCount == s.sentCount - (if s.recipients[r] == SENT then 1 else 0)
        && t.failedCount == s.failedCount - (if s.recipients[r] == RecipientStatus.FAILED then 1 else 0)
      else t.attempts == s.attempts && t.jobs == s.jobs && t.status == s.status
  {
    if (s.channel == POSTAL || s.channel == SEND) && acceptable && r < |s.recipients| {
      RetryEach(Forced(s, r), r);
    }
  }

  lemma OneFirstJob(s: State, r: nat)
    ensures FirstJobs(s, [r], {}, 1)
      == {Job(if s.channel == SEND || s.protocolla then Protocollazione else Queue(s.channel), |s.attempts|)}
  {
  }

  /** Resolving a review does so exactly for somebody held back. */
  lemma ReviewEach(s: State, r: nat)
    ensures var t, n := ResolveReview(s, r), |s.attempts|;
      if r < |s.recipients| && s.recipients[r] == PENDING_REVIEW then
        && t.recipients == s.recipients[r := RecipientStatus.QUEUED]
        && t.attempts == s.attempts + [Attempt(r, s.channel, AttemptStatus.QUEUED, 1, None, "")]
        && t.jobs == s.jobs + {Job(if s.channel == SEND || s.protocolla then Protocollazione else Queue(s.channel), n)}
        && t.status == (if s.status in {COMPLETED, CampaignStatus.FAILED} then CampaignStatus.QUEUED else s.status)
        && t.sentCount == s.sentCount && t.failedCount == s.failedCount
      else t == s
  {
    if r < |s.recipients| && s.recipients[r] == PENDING_REVIEW {
      var p := s.(recipients := s.recipients[r := PENDING]);
      assert FirstAttempts(p, [r], {}) == [Attempt(r, s.channel, AttemptStatus.QUEUED, 1, None, "")];
      OneFirstJob(p, r);
      assert PendingToQueued(p.recipients, [r]) == s.recipients[r := RecipientStatus.QUEUED];
    }
  }

  /** The content goes out again, as a new attempt on the channel of the last one, exactly when the recipient has an
      attempt on a channel that may be sent to twice, in a campaign not cancelled, and has not had this content. */
  predicate ResendsTo(s: State, r: nat) {
    var last := LastOf(s.attempts, r);
    && r < |s.recipients| && last.Some? && s.status != CampaignStatus.CANCELLED
    && !(r in s.resentWith && s.resentWith[r] == s.content)
    && s.attempts[last.value].channel in {EMAIL, PEC, APP_IO}
  }

  predicate Resends(s: State, t: State, r: nat, appIoDelivered: bool) {
    if ResendsTo(s, r) then
      && |t.attempts| == |s.attempts| + 1 && t.attempts[..|s.attempts|] == s.attempts
      && t.attempts[|s.attempts|].recipient == r && t.attempts[|s.attempts|].status == AttemptStatus.QUEUED
      && t.attempts[|s.attempts|].channel == s.attempts[LastOf(s.attempts, r).value].channel
      && t.recipients == s.recipients[r := RecipientStatus.QUEUED]
      && t.sentCount == s.sentCount - (if s.recipients[r] == SENT then 1 else 0)
      && t.failedCount == s.failedCount - (if s.recipients[r] == RecipientStatus.FAILED then 1 else 0)
      && t.resentWith == s.resentWith[r := s.content]
    else
      && t == s.(resentWith := t.resentWith)
      && (t.resentWith == s.resentWith || (appIoDelivered && t.resentWith == s.resentWith[r := s.content]))
  }

  lemma ResendEach(s: State, r: nat, appIoDelivered: bool)
    ensures Resends(s, Resend(s, r, appIoDelivered), r, appIoDelivered)
  {
    if ResendsTo(s, r) {
      var f := Forced(s, r);
      assert Retriable(f, r) && f.attempts == s.attempts;
      assert Retry(f, r).attempts == s.attempts + [NextAttempt(f, r)];
    }
  }

  lemma ResendServes(s: State, r: nat, appIoDelivered: bool)
    requires ResendsTo(s, r) && Safe(s)
    ensures InHand(Resend(s, r, appIoDelivered), r)
  {
    ForcedSafe(s, r);
    RetryServes(Forced(s, r), r);
    SignedInHand(Retry(Forced(s, r), r), s.resentWith[r := s.content], r);
  }

  /** The signatures do not matter to who works on a recipient. */
  lemma SignedInHand(t: State, resentWith: map<nat, string>, r: nat)
    requires InHand(t, r)
    ensures InHand(t.(resentWith := resentWith), r)
  {
    var id :| 0 <= id < |t.attempts| && t.attempts[id].recipient == r && Working(t, id);
    assert Working(t.(resentWith := resentWith), id);
  }

  // ------------------------------------------------------------- the end of a sending, the end of a campaign

  /** A sending that succeeds makes the recipient sent and counts it so; one that fails, failed. Nobody else moves. */
  predicate EndsAs(s: State, t: State, id: nat, ok: bool)
    requires id < |s.attempts| && s.attempts[id].recipient < |s.recipients|
  {
    var r := s.attempts[id].recipient;
    && t.recipients == s.recipients[r := if ok then SENT else RecipientStatus.FAILED]
    && t.attempts == s.attempts[id := s.attempts[id].(status := if ok then SUCCESS else AttemptStatus.FAILED)]
    && t.sentCount == s.sentCount + (if ok then 1 else 0) && t.failedCount == s.failedCount + (if ok then 0 else 1)
  }

  lemma SettledEnds(s: State, id: nat, ok: bool)
    requires id < |s.attempts| && s.attempts[id].recipient < |s.recipients|
    ensures EndsAs(s, Settled(s, id, ok), id, ok)
  {
  }

  lemma WorkerEnds(s: State, id: nat, ok: bool, appIo: bool)
    requires WellFormed(s) && id < |s.attempts| && Job(Queue(s.attempts[id].channel), id) in s.jobs
    requires s.attempts[id].status != SUCCESS
    ensures EndsAs(s, WorkerFinish(s, id, ok, appIo), id, ok)
    ensures Job(Queue(s.attempts[id].channel), id) !in WorkerFinish(s, id, ok, appIo).jobs
  {
    var a := s.attempts[id];
    var t := s.(jobs := s.jobs - {Job(Queue(a.channel), id)});
    SettledEnds(if appIo then t.(resentWith := t.resentWith[a.recipient := t.content]) else t, id, ok);
  }

  lemma PollEnds(s: State, id: nat, ok: bool)
    requires WellFormed(s) && id < |s.attempts| && s.attempts[id].channel == SEND
    requires s.attempts[id].status == AttemptStatus.QUEUED && s.attempts[id].protocol != None
    ensures EndsAs(s, Poll(s, id, ok), id, ok)
  {
    SettledEnds(s, id, ok);
  }

  /** The protocol worker numbers a queued attempt and hands it to its channel's queue, SEND excepted; a permanent
      refusal fails it; an attempt no longer queued is left alone. */
  lemma ProtocolEnds(s: State, id: nat, answer: ProtocolAnswer)
    requires WellFormed(s) && Job(Protocollazione, id) in s.jobs
    ensures var t, a := Protocol(s, id, answer), s.attempts[id];
      if a.status != AttemptStatus.QUEUED then t == s.(jobs := s.jobs - {Job(Protocollazione, id)})
      else match answer
        case Numbered(n) =>
          && t.attempts == s.attempts[id := a.(protocol := Some(n))] && t.recipients == s.recipients && Job(Protocollazione, id) !in t.jobs
          && (a.channel == SEND ==> t.jobs <= s.jobs) && (a.channel != SEND ==> Job(Queue(a.channel), id) in t.jobs)
        case Refused => EndsAs(s, t, id, false) && Job(Protocollazione, id) !in t.jobs
        case TryLater => t == s
  {
    SettledEnds(s.(jobs := s.jobs - {Job(Protocollazione, id)}), id, false);
  }

  /** A campaign closes exactly when queued, not a test, and nobody is pending or queued: as failed when somebody
      failed and nobody was sent to, else as completed. Nothing else changes. */
  predicate ClosesAs(s: State, t: State) {
    && t == s.(status := t.status)
    && t.status == if s.status == CampaignStatus.QUEUED && !s.isTest
         && (forall r :: 0 <= r < |s.recipients| ==> s.recipients[r] != PENDING && s.recipients[r] != RecipientStatus.QUEUED) then
           (if (exists r :: 0 <= r < |s.recipients| && s.recipients[r] == RecipientStatus.FAILED)
               && (forall r :: 0 <= r < |s.recipients| ==> s.recipients[r] != SENT)
            then CampaignStatus.FAILED else COMPLETED)
         else s.status
  }

  lemma Closes(s: State)
    ensures ClosesAs(s, CheckAndComplete(s))
  {
    assert PENDING in s.recipients ==> exists r :: 0 <= r < |s.recipients| && s.recipients[r] == PENDING;
    assert RecipientStatus.QUEUED in s.recipients ==> exists r :: 0 <= r < |s.recipients| && s.recipients[r] == RecipientStatus.QUEUED;
    assert SENT in s.recipients ==> exists r :: 0 <= r < |s.recipients| && s.recipients[r] == SENT;
  }
}
