/** The past of a campaign: attempts numbered without gaps, all of a recipient's on one channel, none for
    somebody still waiting. It holds in every run but for one kind of event, and exactly then. */
module CampaignHistory {
  import opened Text
  import opened Campaigns
  import opened CampaignSafety

  function CountFor(attempts: seq<Attempt>, r: nat): nat {
    if attempts == [] then 0
    else CountFor(attempts[..|attempts| - 1], r) + if attempts[|attempts| - 1].recipient == r then 1 else 0
  }

  /** Each attempt's number is one more than the recipient's earlier attempts. */
  predicate Numbered(attempts: seq<Attempt>) {
    forall i :: 0 <= i < |attempts| ==> attempts[i].number == CountFor(attempts[..i], attempts[i].recipient) + 1
  }

  predicate OneChannel(attempts: seq<Attempt>) {
    forall i, j :: 0 <= i < j < |attempts| && attempts[i].recipient == attempts[j].recipient ==> attempts[i].channel == attempts[j].channel
  }

  predicate NoStraySend(s: State) {
    s.channel != SEND ==> forall i :: 0 <= i < |s.attempts| ==> s.attempts[i].channel != SEND
  }

  predicate Historic(s: State) {
    Numbered(s.attempts) && OneChannel(s.attempts) && NoStraySend(s)
  }

  predicate Waiting(status: RecipientStatus) {
    status.PENDING? || status.PENDING_REVIEW?
  }

  predicate Tried(attempts: seq<Attempt>, r: nat) {
    exists i :: 0 <= i < |attempts| && attempts[i].recipient == r
  }

  predicate Untried(s: State)
    requires WellFormed(s)
  {
    forall i :: 0 <= i < |s.attempts| ==> !Waiting(s.recipients[s.attempts[i].recipient])
  }

  predicate Past(s: State) {
    WellFormed(s) && Historic(s) && Untried(s)
  }

  // ------------------------------------------------------------- numbers

  lemma {:induction false} LastIsCount(attempts: seq<Attempt>, r: nat)
    requires Numbered(attempts)
    ensures LastOf(attempts, r).None? <==> CountFor(attempts, r) == 0
    ensures LastOf(attempts, r).Some? ==> attempts[LastOf(attempts, r).value].number == CountFor(attempts, r)
  {
    if attempts != [] {
      var n := |attempts| - 1;
      assert forall i :: 0 <= i < n ==> attempts[..n][..i] == attempts[..i];
      LastIsCount(attempts[..n], r);
      assert attempts[n].number == CountFor(attempts[..n], attempts[n].recipient) + 1;
    }
  }

  /** The recipient's k-th attempt exists and has number k, for every k up to the count. */
  lemma {:induction false} NumbersWithoutGaps(attempts: seq<Attempt>, r: nat, k: nat)
    requires Numbered(attempts) && 1 <= k <= CountFor(attempts, r)
    ensures exists i :: 0 <= i < |attempts| && attempts[i].recipient == r && attempts[i].number == k
  {
    var n := |attempts| - 1;
    assert forall i :: 0 <= i < n ==> attempts[..n][..i] == attempts[..i];
    if k <= CountFor(attempts[..n], r) {
      NumbersWithoutGaps(attempts[..n], r, k);
      var i :| 0 <= i < n && attempts[..n][i].recipient == r && attempts[..n][i].number == k;
      assert attempts[i].recipient == r;
    } else {
      assert attempts[n].recipient == r && attempts[n].number == k;
    }
  }

  lemma {:induction false} CountIsTried(attempts: seq<Attempt>, r: nat)
    ensures CountFor(attempts, r) > 0 <==> Tried(attempts, r)
  {
    if attempts != [] {
      var n := |attempts| - 1;
      CountIsTried(attempts[..n], r);
      assert Tried(attempts, r) <==> Tried(attempts[..n], r) || attempts[n].recipient == r by {
        assert forall i :: 0 <= i < n ==> attempts[..n][i] == attempts[i];
      }
    }
  }

  /** Same attempts as far as their past goes. */
  predicate SameHistory(a: seq<Attempt>, b: seq<Attempt>) {
    |a| == |b| && forall i :: 0 <= i < |a| ==>
      a[i].recipient == b[i].recipient && a[i].channel == b[i].channel && a[i].number == b[i].number
  }

  lemma {:induction false} SameCount(a: seq<Attempt>, b: seq<Attempt>, r: nat)
    requires SameHistory(a, b)
    ensures CountFor(a, r) == CountFor(b, r)
  {
    if a != [] {
      SameCount(a[..|a| - 1], b[..|b| - 1], r);
    }
  }

  lemma HistoryKept(s: State, t: State)
    requires Historic(s) && SameHistory(s.attempts, t.attempts) && s.channel == t.channel
    ensures Historic(t)
  {
    forall i | 0 <= i < |t.attempts|
      ensures t.attempts[i].number == CountFor(t.attempts[..i], t.attempts[i].recipient) + 1
    {
      SameCount(s.attempts[..i], t.attempts[..i], t.attempts[i].recipient);
      assert s.attempts[i].number == t.attempts[i].number;
    }
  }

  /** The attempt follows on: next in number, on the channel of the earlier ones. */
  predicate Follows(s: State, a: Attempt) {
    && a.number == CountFor(s.attempts, a.recipient) + 1 && (s.channel != SEND ==> a.channel != SEND)
    && forall i :: 0 <= i < |s.attempts| && s.attempts[i].recipient == a.recipient ==> s.attempts[i].channel == a.channel
  }

  lemma AppendHistory(s: State, t: State, a: Attempt)
    requires Historic(s) && t.attempts == s.attempts + [a] && s.channel == t.channel
    ensures Historic(t) <==> Follows(s, a)
  {
    NumberedAppend(s.attempts, a);
    OneChannelAppend(s.attempts, a);
    assert forall i :: 0 <= i < |s.attempts| ==> t.attempts[i] == s.attempts[i];
    assert t.attempts[|s.attempts|] == a;
  }

  lemma NumberedAppend(attempts: seq<Attempt>, a: Attempt)
    requires Numbered(attempts)
    ensures Numbered(attempts + [a]) <==> a.number == CountFor(attempts, a.recipient) + 1
  {
    var n, t := |attempts|, attempts + [a];
    assert t[..n] == attempts && t[n] == a;
    assert forall i :: 0 <= i < n ==> t[..i] == attempts[..i] && t[i] == attempts[i];
  }

  lemma OneChannelAppend(attempts: seq<Attempt>, a: Attempt)
    requires OneChannel(attempts)
    ensures OneChannel(attempts + [a])
      <==> forall i :: 0 <= i < |attempts| && attempts[i].recipient == a.recipient ==> attempts[i].channel == a.channel
  {
    var n, t := |attempts|, attempts + [a];
    assert forall i :: 0 <= i < n ==> t[i] == attempts[i];
    if OneChannel(t) {
      forall i | 0 <= i < n && attempts[i].recipient == a.recipient ensures attempts[i].channel == a.channel {
        assert t[i] == attempts[i] && t[n] == a;
      }
    }
  }

  // ------------------------------------------------------------- the two ways a campaign moves

  /** No attempt more, and nobody starts waiting. */
  predicate StaysPut(s: State, t: State) {
    && WellFormed(t) && SameHistory(s.attempts, t.attempts) && s.channel == t.channel && |s.recipients| <= |t.recipients|
    && forall r :: 0 <= r < |s.recipients| && Waiting(t.recipients[r]) ==> Waiting(s.recipients[r])
  }

  lemma StaysPutPast(s: State, t: State)
    requires Past(s) && StaysPut(s, t)
    ensures Past(t)
  {
    HistoryKept(s, t);
  }

  /** One attempt more, for a recipient not queued. */
  predicate Appended(s: State, t: State, a: Attempt, js: set<Job>)
    requires WellFormed(s)
  {
    && t.attempts == s.attempts + [a] && t.jobs == s.jobs + js && t.channel == s.channel && t.protocolla == s.protocolla
    && a.recipient < |s.recipients| && !s.recipients[a.recipient].QUEUED? && a.status.QUEUED?
    && t.recipients == s.recipients[a.recipient := RecipientStatus.QUEUED] && t.verifying == s.verifying
  }

  lemma AppendedPast(s: State, t: State, a: Attempt, js: set<Job>)
    requires Past(s) && Appended(s, t, a, js) && Follows(s, a)
    requires forall j :: j in js ==> j.attempt == |s.attempts|
    ensures Past(t)
  {
    AppendHistory(s, t, a);
  }

  predicate AllPending(s: State, ids: seq<nat>) {
    && (forall i :: 0 <= i < |ids| ==> ids[i] < |s.recipients| && s.recipients[ids[i]].PENDING?)
    && (forall i, j :: 0 <= i < j < |ids| ==> ids[i] != ids[j])
  }

  lemma CreatedJobs(s: State, ids: seq<nat>, diverted: set<nat>)
    requires ids != []
    ensures var n := |ids| - 1;
      FirstJobs(s, ids, diverted, |ids|)
        == FirstJobs(s, ids[..n], diverted, n) + {Job(EngineFor(s, ids[n], diverted), |s.attempts| + n)}
  {
  }

  lemma CreatedRecipients(recipients: seq<RecipientStatus>, ids: seq<nat>)
    requires ids != [] && ids[|ids| - 1] < |recipients| && recipients[ids[|ids| - 1]].PENDING?
    ensures var n := |ids| - 1;
      PendingToQueued(recipients, ids) == PendingToQueued(recipients, ids[..n])[ids[n] := RecipientStatus.QUEUED]
  {
  }

  /** Creating attempts for a list is creating them one after the other. */
  lemma CreatedStep(s: State, ids: seq<nat>, diverted: set<nat>)
    requires WellFormed(s) && AllPending(s, ids) && ids != []
    requires WellFormed(Created(s, ids[..|ids| - 1], diverted))
    ensures var n := |ids| - 1;
      Appended(Created(s, ids[..n], diverted), Created(s, ids, diverted), FirstAttempt(s, ids[n], diverted),
        {Job(EngineFor(s, ids[n], diverted), |s.attempts| + n)})
    ensures Created(s, ids[..|ids| - 1], diverted).recipients[ids[|ids| - 1]].PENDING?
  {
    var n := |ids| - 1;
    assert FirstAttempts(s, ids, diverted) == FirstAttempts(s, ids[..n], diverted) + [FirstAttempt(s, ids[n], diverted)];
    CreatedJobs(s, ids, diverted);
    CreatedRecipients(s.recipients, ids);
    assert s.recipients[ids[n]].PENDING?;
    assert ids[n] !in ids[..n];
  }

  /** The first attempt of somebody who was waiting. */
  lemma FirstFollows(s: State, a: Attempt)
    requires Past(s) && a.recipient < |s.recipients| && Waiting(s.recipients[a.recipient])
    requires a.number == 1 && (s.channel != SEND ==> a.channel != SEND)
    ensures Follows(s, a)
  {
    CountIsTried(s.attempts, a.recipient);
  }

  lemma CreatedNone(s: State, diverted: set<nat>)
    ensures Created(s, [], diverted) == s
  {
  }

  lemma AppendedFirst(s: State, t: State, a: Attempt, j: Job)
    requires Past(s) && Appended(s, t, a, {j}) && Waiting(s.recipients[a.recipient]) && j.attempt == |s.attempts|
    requires a.number == 1 && (s.channel != SEND ==> a.channel != SEND)
    ensures Past(t) && Follows(s, a)
  {
    FirstFollows(s, a);
    AppendedPast(s, t, a, {j});
  }

  lemma CreatedOneMore(s: State, ids: seq<nat>, diverted: set<nat>)
    requires WellFormed(s) && AllPending(s, ids) && ids != [] && Past(Created(s, ids[..|ids| - 1], diverted))
    ensures Past(Created(s, ids, diverted))
  {
    var n := |ids| - 1;
    CreatedStep(s, ids, diverted);
    AppendedFirst(Created(s, ids[..n], diverted), Created(s, ids, diverted), FirstAttempt(s, ids[n], diverted),
      Job(EngineFor(s, ids[n], diverted), |s.attempts| + n));
  }

  lemma {:induction false} CreatedPast(s: State, ids: seq<nat>, diverted: set<nat>)
    requires Past(s) && AllPending(s, ids)
    ensures Past(Created(s, ids, diverted))
  {
    if ids == [] {
      CreatedNone(s, diverted);
    } else {
      CreatedPast(s, ids[..|ids| - 1], diverted);
      CreatedOneMore(s, ids, diverted);
    }
  }

  lemma PendingAreAll(s: State)
    ensures AllPending(s, WithStatus(s.recipients, PENDING))
  {
    var ids := WithStatus(s.recipients, PENDING);
    forall i | 0 <= i < |ids| ensures ids[i] < |s.recipients| && s.recipients[ids[i]].PENDING? {
      assert ids[i] in ids;
    }
  }

  // ------------------------------------------------------------- the operations

  lemma PendingPast(s: State, diverted: set<nat>)
    requires Past(s)
    ensures Past(CreatedForPending(s, diverted))
  {
    PendingAreAll(s);
    CreatedPast(s, WithStatus(s.recipients, PENDING), diverted);
  }

  lemma HeldPast(s: State, review: set<nat>)
    requires Past(s)
    ensures Past(Held(s, review))
  {
    StaysPutPast(s, Held(s, review));
  }

  lemma LaunchPast(s: State, route: Route)
    requires Past(s)
    ensures Past(Launch(s, route))
  {
    var q := ToCampaign(s, CampaignStatus.QUEUED);
    StaysPutPast(s, q);
    PendingPast(q, {});
    match route
    case Synced(diverted, review) =>
      HeldPast(q, review);
      PendingPast(Held(q, review), diverted);
    case Deferred(review, companies) =>
      HeldPast(q, review);
      StaysPutPast(q, ToCampaign(Verifying(Held(q, review), companies), CHECKING_INAD));
    case Unreachable(review, companies) =>
      HeldPast(q, review);
      StaysPutPast(q, ToCampaign(Verifying(Held(q, review), companies), DRAFT));
    case _ =>
  }

  lemma CheckOverPast(s: State, ready: bool, diverted: set<nat>)
    requires Past(s)
    ensures Past(Finalize(s, ready, diverted)) && Past(SkipCheck(s))
  {
    var q := ToCampaign(s, CampaignStatus.QUEUED);
    StaysPutPast(s, q);
    PendingPast(q, {});
    PendingPast(q, diverted);
  }

  lemma TestSendPast(s: State, blocked: bool, diverted: bool)
    requires Past(s)
    ensures Past(TestSend(s, blocked, diverted))
  {
    var t := s.(recipients := s.recipients + [PENDING]);
    StaysPutPast(s, t);
    CreatedPast(t, [|s.recipients|], if diverted && s.channel != SEND then {|s.recipients|} else {});
  }

  lemma NextFollows(s: State, r: nat)
    requires Past(s) && r < |s.recipients|
    ensures Follows(s, NextAttempt(s, r))
  {
    LastIsCount(s.attempts, r);
  }

  lemma RetryPast(s: State, r: nat)
    requires Past(s)
    ensures Past(Retry(s, r))
  {
    if Retriable(s, r) {
      var a := NextAttempt(s, r);
      NextFollows(s, r);
      AppendedPast(s, Requeued(s, r), a, RetryJobs(s, a));
      StaysPutPast(Requeued(s, r), Retry(s, r));
    }
  }

  lemma ForcedPast(s: State, r: nat)
    requires Past(s) && r < |s.recipients|
    ensures Past(Retry(Forced(s, r), r))
  {
    StaysPutPast(s, Forced(s, r));
    RetryPast(Forced(s, r), r);
  }

  lemma ResendPast(s: State, r: nat, appIoDelivered: bool)
    requires Past(s)
    ensures Past(Resend(s, r, appIoDelivered))
  {
    if r < |s.recipients| {
      ForcedPast(s, r);
      var t := Retry(Forced(s, r), r);
      StaysPutPast(t, t.(resentWith := s.resentWith[r := s.content]));
      StaysPutPast(s, s.(resentWith := s.resentWith[r := s.content]));
    }
  }

  lemma ResolveReviewPast(s: State, r: nat)
    requires Past(s)
    ensures Past(ResolveReview(s, r))
  {
    if r < |s.recipients| && s.recipients[r].PENDING_REVIEW? {
      var p := s.(recipients := s.recipients[r := PENDING]);
      StaysPutPast(s, p);
      CreatedPast(p, [r], {});
      StaysPutPast(Created(p, [r], {}), ResolveReview(s, r));
    }
  }

  lemma CancelPast(s: State, locked: set<nat>)
    requires Past(s)
    ensures Past(Cancel(s, locked))
  {
    StaysPutPast(s, Cancel(s, locked));
  }

  lemma CorrectAddressPast(s: State, r: nat, acceptable: bool)
    requires Past(s)
    ensures Past(CorrectAddress(s, r, acceptable))
  {
    if r < |s.recipients| {
      ForcedPast(s, r);
    }
  }

  lemma AttachPast(s: State, r: nat, number: nat, idPro: string, valid: bool)
    requires Past(s)
    ensures Past(Attach(s, r, number, idPro, valid))
  {
    var id := AttemptNumbered(s.attempts, r, number);
    if id.Some? && r < |s.recipients| {
      var a := s.attempts[id.value].(tracking := idPro);
      var b := a.(status := SUCCESS);
      AttemptPast(s, id.value, a);
      AttemptPast(s, id.value, b);
      var t := s.(attempts := s.attempts[id.value := b]);
      StaysPutPast(t, Promoted(t, r));
    }
  }

  /** Only the status, the protocol or the tracking of one attempt changes. */
  lemma AttemptPast(s: State, id: nat, a: Attempt)
    requires Past(s) && id < |s.attempts|
    requires a == s.attempts[id].(status := a.status, protocol := a.protocol, tracking := a.tracking)
    ensures Past(s.(attempts := s.attempts[id := a]))
  {
    StaysPutPast(s, s.(attempts := s.attempts[id := a]));
  }

  lemma WorkerStartPast(s: State, id: nat)
    requires Past(s)
    ensures Past(Step(s, WorkerStarts(id)))
  {
    StaysPutPast(s, WorkerStart(s, id));
  }

  lemma PollPast(s: State, id: nat, ok: bool)
    requires Past(s)
    ensures Past(Step(s, Polled(id, ok)))
  {
    if Pollable(s, id) {
      SettledPast(s, s, id, ok);
    }
  }

  lemma StatusPast(s: State, status: CampaignStatus)
    requires Past(s)
    ensures Past(ToCampaign(s, status))
  {
    StaysPutPast(s, ToCampaign(s, status));
  }

  lemma SettledPast(s: State, t: State, id: nat, ok: bool)
    requires Past(s) && id < |s.attempts| && t == s.(jobs := t.jobs, resentWith := t.resentWith) && t.jobs <= s.jobs
    ensures Past(Settled(t, id, ok))
  {
    StaysPutPast(s, t);
    EndedPast(t, id, ok);
    StatusPast(Ended(t, id, ok), Settled(t, id, ok).status);
  }

  lemma EndedPast(s: State, id: nat, ok: bool)
    requires Past(s) && id < |s.attempts|
    ensures Past(Ended(s, id, ok))
  {
    var a := s.attempts[id].(status := if ok then SUCCESS else AttemptStatus.FAILED);
    AttemptPast(s, id, a);
    StaysPutPast(s.(attempts := s.attempts[id := a]), Ended(s, id, ok));
  }

  lemma WorkerFinishPast(s: State, id: nat, ok: bool, appIo: bool)
    requires Past(s)
    ensures Past(Step(s, WorkerFinishes(id, ok, appIo)))
  {
    if HasJob(s, id) {
      var a := s.attempts[id];
      var t := s.(jobs := s.jobs - {Job(Queue(a.channel), id)});
      StaysPutPast(s, t);
      SettledPast(s, if appIo then t.(resentWith := t.resentWith[a.recipient := t.content]) else t, id, ok);
    }
  }

  lemma ProtocolPast(s: State, id: nat, answer: ProtocolAnswer)
    requires Past(s)
    ensures Past(Step(s, ProtocolAnswers(id, answer)))
  {
    if Job(Protocollazione, id) in s.jobs {
      ProtocolledPast(s, id, answer);
    }
  }

  lemma ProtocolledPast(s: State, id: nat, answer: ProtocolAnswer)
    requires Past(s) && Job(Protocollazione, id) in s.jobs
    ensures Past(Protocol(s, id, answer))
  {
    var t := s.(jobs := s.jobs - {Job(Protocollazione, id)});
    StaysPutPast(s, t);
    SettledPast(s, t, id, false);
    if s.attempts[id].status.QUEUED? && answer.Numbered? {
      AttemptPast(t, id, s.attempts[id].(protocol := Some(answer.number)));
      StaysPutPast(t.(attempts := s.attempts[id := s.attempts[id].(protocol := Some(answer.number))]), Protocol(s, id, answer));
    }
  }

  // ------------------------------------------------------------- late answers

  /** Registro Imprese holds back, in a PEC campaign, somebody already sent to or about to be. */
  predicate LateAnswer(s: State, r: nat, differs: bool) {
    r in s.verifying && differs && s.channel == PEC && Tried(s.attempts, r)
  }

  lemma VerifyPast(s: State, r: nat, differs: bool)
    requires Past(s)
    ensures Past(Verify(s, r, differs)) <==> !LateAnswer(s, r, differs)
  {
    var t := Verify(s, r, differs);
    if LateAnswer(s, r, differs) {
      var i :| 0 <= i < |s.attempts| && s.attempts[i].recipient == r;
      assert t.recipients[t.attempts[i].recipient].PENDING_REVIEW?;
    } else {
      assert forall i :: 0 <= i < |s.attempts| ==> t.recipients[s.attempts[i].recipient] == s.recipients[s.attempts[i].recipient];
      HistoryKept(s, t);
    }
  }

  /** Once such an answer is reviewed the recipient's attempts are numbered wrong; otherwise never. */
  lemma LateReviewRenumbers(s: State, r: nat, differs: bool)
    requires Past(s)
    ensures Historic(ResolveReview(Verify(s, r, differs), r)) <==> !LateAnswer(s, r, differs)
  {
    var t := Verify(s, r, differs);
    VerifyPast(s, r, differs);
    if LateAnswer(s, r, differs) {
      var u, a := ResolveReview(t, r), FirstAttempt(t, r, {});
      HistoryKept(s, t);
      assert u.attempts == t.attempts + [a];
      CountIsTried(t.attempts, r);
      AppendHistory(t, u, a);
    } else {
      ResolveReviewPast(t, r);
    }
  }

  predicate OnTime(s: State, e: Event) {
    e.Verified? ==> !LateAnswer(s, e.r, e.differs)
  }

  /** Every step of every operation and worker keeps the past, but for late answers, and those never do. */
  lemma StepPast(s: State, e: Event)
    requires Past(s)
    ensures Past(Step(s, e)) <==> OnTime(s, e)
  {
    if e.Verified? {
      VerifyPast(s, e.r, e.differs);
    } else if ByWorker(e) {
      WorkerPast(s, e);
      assert OnTime(s, e);
    } else {
      ServicePast(s, e);
      assert OnTime(s, e);
    }
  }

  lemma WorkerPast(s: State, e: Event)
    requires Past(s) && ByWorker(e) && !e.Verified?
    ensures Past(Step(s, e))
  {
    match e
    case WorkerStarts(id) => WorkerStartPast(s, id);
    case WorkerFinishes(id, ok, appIo) => WorkerFinishPast(s, id, ok, appIo);
    case ProtocolAnswers(id, answer) => ProtocolPast(s, id, answer);
    case Polled(id, ok) => PollPast(s, id, ok);
    case _ =>
  }

  lemma ContentPast(s: State, content: string)
    requires Past(s)
    ensures Past(s.(content := content))
  {
    StaysPutPast(s, s.(content := content));
  }

  lemma ServicePast(s: State, e: Event)
    requires Past(s) && !ByWorker(e)
    ensures Past(Step(s, e))
  {
    match e
    case DoLaunch(route) => LaunchPast(s, route);
    case DoFinalize(ready, diverted) => CheckOverPast(s, ready, diverted);
    case DoSkip => CheckOverPast(s, false, {});
    case DoTestSend(blocked, toPec) => TestSendPast(s, blocked, toPec);
    case DoCancel(locked) => CancelPast(s, locked);
    case DoRetry(r) => RetryPast(s, r);
    case DoCorrectAddress(r, acceptable) => CorrectAddressPast(s, r, acceptable);
    case DoResolveReview(r) => ResolveReviewPast(s, r);
    case DoResend(r, appIoDelivered) => ResendPast(s, r, appIoDelivered);
    case DoAttach(r, number, idPro, valid) => AttachPast(s, r, number, idPro, valid);
    case ContentChanged(content) => ContentPast(s, content);
    case _ =>
  }

  // ------------------------------------------------------------- runs

  /** The past holds at every moment of the run. */
  predicate PastThroughout(s: State, events: seq<Event>)
    requires Initial(s)
  {
    Past(Run(s, events)) && (events != [] ==> PastThroughout(s, events[..|events| - 1]))
  }

  predicate OnTimeRun(s: State, events: seq<Event>)
    requires Initial(s)
  {
    events != [] ==>
      var before := events[..|events| - 1];
      OnTimeRun(s, before) && OnTime(Run(s, before), events[|events| - 1])
  }

  /** In every run, attempts are numbered without gaps, on one channel, and nobody waiting has any, at every
      moment, exactly when no answer of Registro Imprese is late. */
  lemma {:induction false} RunPast(s: State, events: seq<Event>)
    requires Initial(s)
    ensures PastThroughout(s, events) <==> OnTimeRun(s, events)
  {
    if events != [] {
      var before := events[..|events| - 1];
      RunPast(s, before);
      if PastThroughout(s, before) {
        assert Past(Run(s, before));
        StepPast(Run(s, before), events[|events| - 1]);
      }
    }
  }
}
