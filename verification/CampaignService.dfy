/** The services as they run: fields updated step by step, lists walked in chunks, queues filled
    bucket by bucket. Each method leaves exactly the state its operation on values describes, and keeps
    what holds of a campaign. */
module CampaignService {
  import opened Text
  import opened Campaigns
  import opened CampaignCounters
  import opened CampaignSafety
  import opened CampaignHistory
  import opened CampaignSending

  const CHUNK: nat := 500
  const JOB_CHUNK: nat := 1000

  function Min(a: nat, b: nat): nat {
    if a < b then a else b
  }

  /** What every operation keeps: safety, the past, and both counters against the recipients. */
  predicate Keeps(before: State, after: State) {
    (Safe(before) ==> Safe(after)) && (Past(before) ==> Past(after)) && Drift(after) == Drift(before)
  }

  lemma LaunchKeeps(s: State, route: Route)
    ensures Keeps(s, Campaigns.Launch(s, route))
  {
    LaunchDrift(s, route);
    if Safe(s) {
      LaunchSafe(s, route);
    }
    if Past(s) {
      LaunchPast(s, route);
    }
  }

  lemma TestSendKeeps(s: State, blocked: bool, diverted: bool)
    ensures Keeps(s, TestSend(s, blocked, diverted))
  {
    TestSendDrift(s, blocked, diverted);
    if Safe(s) {
      TestSendSafe(s, blocked, diverted);
    }
    if Past(s) {
      TestSendPast(s, blocked, diverted);
    }
  }

  lemma FinalizeKeeps(s: State, ready: bool, diverted: set<nat>)
    ensures Keeps(s, Campaigns.Finalize(s, ready, diverted))
  {
    CheckOverDrift(s, ready, diverted);
    if Safe(s) {
      CheckOverSafe(s, ready, diverted);
    }
    if Past(s) {
      CheckOverPast(s, ready, diverted);
    }
  }

  lemma SkipCheckKeeps(s: State)
    ensures Keeps(s, SkipCheck(s))
  {
    CheckOverDrift(s, false, {});
    if Safe(s) {
      CheckOverSafe(s, false, {});
    }
    if Past(s) {
      CheckOverPast(s, false, {});
    }
  }

  lemma CancelKeeps(s: State, locked: set<nat>)
    ensures Keeps(s, Campaigns.Cancel(s, locked))
  {
    CancelDrift(s, locked);
    if Safe(s) {
      CancelSafe(s, locked);
    }
    if Past(s) {
      CancelPast(s, locked);
    }
  }

  lemma RetryKeeps(s: State, r: nat)
    ensures Keeps(s, Retry(s, r))
  {
    RetryDrift(s, r);
    if Safe(s) {
      RetrySafe(s, r);
    }
    if Past(s) {
      RetryPast(s, r);
    }
  }

  lemma CorrectAddressKeeps(s: State, r: nat, acceptable: bool)
    ensures Keeps(s, CorrectAddress(s, r, acceptable))
  {
    CorrectAddressDrift(s, r, acceptable);
    if Safe(s) {
      CorrectAddressSafe(s, r, acceptable);
    }
    if Past(s) {
      CorrectAddressPast(s, r, acceptable);
    }
  }

  lemma ResolveReviewKeeps(s: State, r: nat)
    ensures Keeps(s, ResolveReview(s, r))
  {
    ResolveReviewDrift(s, r);
    if Safe(s) {
      ResolveReviewSafe(s, r);
    }
    if Past(s) {
      ResolveReviewPast(s, r);
    }
  }

  lemma ResendKeeps(s: State, r: nat, appIoDelivered: bool)
    ensures Keeps(s, Resend(s, r, appIoDelivered))
  {
    ResendDrift(s, r, appIoDelivered);
    if Safe(s) {
      ResendSafe(s, r, appIoDelivered);
    }
    if Past(s) {
      ResendPast(s, r, appIoDelivered);
    }
  }

  lemma AttachKeeps(s: State, r: nat, number: nat, idPro: string, valid: bool)
    ensures Keeps(s, Attach(s, r, number, idPro, valid))
  {
    AttachDrift(s, r, number, idPro, valid);
    if Safe(s) {
      AttachSafe(s, r, number, idPro, valid);
    }
    if Past(s) {
      AttachPast(s, r, number, idPro, valid);
    }
  }

  class CampaignRecord {
    const channel: Channel
    const protocolla: bool
    const isTest: bool
    var content: string
    var status: CampaignStatus
    var sentCount: int
    var failedCount: int
    var recipients: seq<RecipientStatus>
    var attempts: seq<Attempt>
    var jobs: set<Job>
    var verifying: set<nat>
    var resentWith: map<nat, string>

    function View(): State
      reads this
    {
      State(channel, protocolla, isTest, content, status, sentCount, failedCount, recipients, attempts, jobs,
        verifying, resentWith)
    }

    constructor (channel: Channel, protocolla: bool, recipients: nat)
      ensures Initial(View()) && !isTest && |this.recipients| == recipients
    {
      this.channel, this.protocolla, isTest, content, status := channel, protocolla, false, "", DRAFT;
      sentCount, failedCount, attempts, jobs, verifying, resentWith := 0, 0, [], {}, {}, map[];
      this.recipients := seq(recipients, _ => PENDING);
    }

    // ----------------------------------------------------------- the repositories

    /** recipientRepo.find({ where: { status } }) */
    method Find(status: RecipientStatus) returns (ids: seq<nat>)
      ensures ids == WithStatus(recipients, status)
    {
      ids := [];
      for r := 0 to |recipients|
        invariant ids == WithStatus(recipients[..r], status)
      {
        assert recipients[..r + 1][..r] == recipients[..r];
        if recipients[r] == status {
          ids := ids + [r];
        }
      }
      assert recipients[..|recipients|] == recipients;
    }

    /** recipientRepo.count({ where: { status } }) */
    method Count(status: RecipientStatus) returns (n: nat)
      ensures n == Tally(recipients, status)
      ensures n == 0 <==> status !in recipients
    {
      n := 0;
      for r := 0 to |recipients|
        invariant n == Tally(recipients[..r], status)
      {
        assert recipients[..r + 1] == recipients[..r] + [recipients[r]];
        if recipients[r] == status {
          n := n + 1;
        }
      }
      assert recipients[..|recipients|] == recipients;
    }

    /** INSERT … RETURNING id */
    method Insert(values: seq<Attempt>) returns (ids: seq<nat>)
      modifies this`attempts
      ensures attempts == old(attempts) + values
      ensures |ids| == |values| && forall i :: 0 <= i < |ids| ==> ids[i] == old(|attempts|) + i
    {
      var first := |attempts|;
      ids := seq(|values|, i requires 0 <= i < |values| => first + i);
      attempts := attempts + values;
    }

    /** addBulk on one queue: a job whose id is on the queue already is not added twice. */
    method AddBulk(engine: Engine, bucket: seq<Job>)
      requires forall j :: j in bucket ==> j.engine == engine
      modifies this`jobs
      ensures jobs == old(jobs) + set j | j in bucket
    {
      jobs := jobs + set j | j in bucket;
    }

    // ----------------------------------------------------------- attempts and jobs

    method InsertChunk(ids: seq<nat>, from: nat, to: nat, diverted: set<nat>, ghost s: State) returns (inserted: seq<nat>)
      requires from <= to <= |ids| && s.channel == channel
      requires attempts == s.attempts + FirstAttempts(s, ids[..from], diverted)
      modifies this`attempts
      ensures attempts == s.attempts + FirstAttempts(s, ids[..to], diverted)
      ensures |inserted| == to - from && forall i :: 0 <= i < to - from ==> inserted[i] == |s.attempts| + from + i
    {
      var values := FirstAttempts(View(), ids[from..to], diverted);
      FirstAttemptsSplit(s, View(), ids, diverted, from, to);
      Regroup(s.attempts, FirstAttempts(s, ids[..from], diverted), values);
      inserted := Insert(values);
    }

    /** The attempts, 500 at a time; the ids come back in the order of the recipients. */
    method InsertFirstAttempts(ids: seq<nat>, diverted: set<nat>) returns (attemptIds: seq<nat>)
      modifies this`attempts
      ensures attempts == old(attempts) + FirstAttempts(old(View()), ids, diverted)
      ensures |attemptIds| == |ids| && forall i :: 0 <= i < |ids| ==> attemptIds[i] == old(|attempts|) + i
    {
      ghost var s := View();
      attemptIds := [];
      var i := 0;
      while i < |ids|
        invariant 0 <= i <= |ids| && |attemptIds| == i
        invariant attempts == s.attempts + FirstAttempts(s, ids[..i], diverted)
        invariant forall k :: 0 <= k < i ==> attemptIds[k] == |s.attempts| + k
      {
        var next := Min(i + CHUNK, |ids|);
        var inserted := InsertChunk(ids, i, next, diverted, s);
        attemptIds := attemptIds + inserted;
        i := next;
      }
      assert ids[..i] == ids;
    }

    /** The jobs of one chunk, by queue. */
    method Buckets(ids: seq<nat>, attemptIds: seq<nat>, diverted: set<nat>) returns (byEngine: map<Engine, seq<Job>>)
      requires |attemptIds| == |ids|
      ensures forall e, j :: e in byEngine && j in byEngine[e] ==> j.engine == e && IsChunkJob(View(), ids, attemptIds, diverted, |ids|, j)
      ensures forall j :: IsChunkJob(View(), ids, attemptIds, diverted, |ids|, j) ==> j.engine in byEngine && j in byEngine[j.engine]
    {
      byEngine := map[];
      for idx := 0 to |ids|
        invariant forall e, j :: e in byEngine && j in byEngine[e] ==> j.engine == e && IsChunkJob(View(), ids, attemptIds, diverted, idx, j)
        invariant forall j :: IsChunkJob(View(), ids, attemptIds, diverted, idx, j) ==> j.engine in byEngine && j in byEngine[j.engine]
      {
        var engine := EngineFor(View(), ids[idx], diverted);
        var job := Job(engine, attemptIds[idx]);
        byEngine := byEngine[engine := (if engine in byEngine then byEngine[engine] else []) + [job]];
      }
    }

    /** One addBulk for each bucket. */
    method AddBuckets(byEngine: map<Engine, seq<Job>>)
      requires forall e, j :: e in byEngine && j in byEngine[e] ==> j.engine == e
      modifies this`jobs
      ensures forall j :: j in jobs <==> j in old(jobs) || (j.engine in byEngine && j in byEngine[j.engine])
    {
      var engines := byEngine.Keys;
      while engines != {}
        invariant engines <= byEngine.Keys
        invariant forall j :: j in jobs <==> j in old(jobs) || (j.engine in byEngine && j.engine !in engines && j in byEngine[j.engine])
      {
        var engine :| engine in engines;
        AddBulk(engine, byEngine[engine]);
        engines := engines - {engine};
      }
    }

    method EnqueueChunk(ids: seq<nat>, attemptIds: seq<nat>, diverted: set<nat>, from: nat, to: nat, ghost s: State)
      requires |attemptIds| == |ids| && forall i :: 0 <= i < |ids| ==> attemptIds[i] == |s.attempts| + i
      requires s.channel == channel && s.protocolla == protocolla && from <= to <= |ids|
      modifies this`jobs
      ensures forall j :: j in jobs <==> j in old(jobs) || (IsFirstJob(s, ids, diverted, to, j) && !IsFirstJob(s, ids, diverted, from, j))
    {
      var byEngine := Buckets(ids[from..to], attemptIds[from..to], diverted);
      AddBuckets(byEngine);
      forall j ensures IsFirstJob(s, ids, diverted, to, j)
        <==> IsFirstJob(s, ids, diverted, from, j) || IsChunkJob(View(), ids[from..to], attemptIds[from..to], diverted, to - from, j)
      {
        ChunkJobs(View(), s, ids, attemptIds, diverted, from, to, j);
      }
    }

    /** The jobs, 1000 at a time. */
    method EnqueueFirstJobs(ids: seq<nat>, attemptIds: seq<nat>, diverted: set<nat>, ghost s: State)
      requires |attemptIds| == |ids| && forall i :: 0 <= i < |ids| ==> attemptIds[i] == |s.attempts| + i
      requires s.channel == channel && s.protocolla == protocolla
      modifies this`jobs
      ensures jobs == old(jobs) + FirstJobs(s, ids, diverted, |ids|)
    {
      var i := 0;
      while i < |ids|
        invariant 0 <= i <= |ids|
        invariant jobs == old(jobs) + FirstJobs(s, ids, diverted, i)
      {
        var next := Min(i + JOB_CHUNK, |ids|);
        EnqueueChunk(ids, attemptIds, diverted, i, next, s);
        i := next;
      }
    }

    method CreateAttemptsAndEnqueue(ids: seq<nat>, diverted: set<nat>) returns (launched: nat)
      modifies this`attempts, this`jobs, this`recipients
      ensures View() == Created(old(View()), ids, diverted) && launched == |ids|
    {
      ghost var s := View();
      if |ids| == 0 {
        assert Created(s, ids, diverted).attempts == s.attempts && Created(s, ids, diverted).jobs == s.jobs;
        assert Created(s, ids, diverted).recipients == s.recipients;
        return 0;
      }
      var attemptIds := InsertFirstAttempts(ids, diverted);
      EnqueueFirstJobs(ids, attemptIds, diverted, s);
      recipients := PendingToQueued(recipients, ids);
      launched := |ids|;
    }

    // ----------------------------------------------------------- launching

    /** PENDING_REVIEW for the companies of a PEC campaign whose registered PEC differs; what remains is sendable. */
    method HoldBack(ids: seq<nat>, review: set<nat>) returns (sendable: seq<nat>)
      requires ids == WithStatus(recipients, PENDING)
      modifies this`recipients
      ensures View() == Held(old(View()), review)
      ensures sendable == WithStatus(recipients, PENDING)
    {
      ghost var s := View();
      WithStatusAre(recipients, PENDING);
      sendable := HoldEach(ids, review);
      AllHeld(s, recipients, ids, review);
    }

    method HoldEach(ids: seq<nat>, review: set<nat>) returns (sendable: seq<nat>)
      requires forall i :: 0 <= i < |ids| ==> ids[i] < |recipients| && recipients[ids[i]] == PENDING
      requires forall i, j :: 0 <= i < j < |ids| ==> ids[i] < ids[j]
      modifies this`recipients
      ensures HeldUpTo(old(View()), recipients, ids, |ids|, review)
      ensures sendable == Kept(old(View()), ids, review)
    {
      ghost var s := View();
      sendable := [];
      for i := 0 to |ids|
        invariant HeldUpTo(s, recipients, ids, i, review)
        invariant sendable == Kept(s, ids[..i], review)
      {
        HeldOneMore(s, recipients, ids, i, review);
        assert ids[..i + 1][..i] == ids[..i];
        var held := HoldOne(ids[i], review);
        if !held {
          sendable := sendable + [ids[i]];
        }
      }
      assert ids[..|ids|] == ids;
    }

    method HoldOne(r: nat, review: set<nat>) returns (held: bool)
      requires r < |recipients| && recipients[r] == PENDING
      modifies this`recipients
      ensures recipients == old(recipients)[r := HeldStatus(old(View()), r, review)]
      ensures held == (channel == PEC && r in review)
    {
      held := channel == PEC && r in review;
      if held {
        recipients := recipients[r := PENDING_REVIEW];
      }
    }

    /** launch. With nobody pending it throws and the campaign stays queued. */
    method Launch(route: Route) returns (launched: nat)
      modifies this
      ensures View() == Campaigns.Launch(old(View()), route) && Keeps(old(View()), View())
      ensures LaunchesAs(old(View()), View(), route)
    {
      LaunchSends(View(), route);
      LaunchKeeps(View(), route);
      launched := 0;
      if status != DRAFT { return; }
      status := CampaignStatus.QUEUED;
      if route.Blocked? {
        status := DRAFT;
        return;
      }
      launched := LaunchPending(route);
    }

    /** The launch of whoever is pending. */
    method LaunchPending(route: Route) returns (launched: nat)
      requires !route.Blocked?
      modifies this
      ensures View() == if PENDING !in old(recipients) then old(View()) else Launched(old(View()), route)
    {
      launched := 0;
      var ids := Find(PENDING);
      PendingListed(recipients);
      if |ids| == 0 { return; }
      if channel == SEND || route.Direct? {
        launched := CreateAttemptsAndEnqueue(ids, {});
        return;
      }
      launched := LaunchChecked(ids, route);
    }

    /** The launch with its check of digital domiciles. */
    method LaunchChecked(ids: seq<nat>, route: Route) returns (launched: nat)
      requires ids == WithStatus(recipients, PENDING) && (route.Synced? || route.Deferred? || route.Unreachable?)
      modifies this
      ensures var h := Held(old(View()), route.review);
        View() == match route
          case Synced(diverted, _) => CreatedForPending(h, diverted)
          case Deferred(_, companies) => ToCampaign(Campaigns.Verifying(h, companies), CHECKING_INAD)
          case _ => ToCampaign(Campaigns.Verifying(h, route.companies), DRAFT)
    {
      launched := 0;
      var sendable := HoldBack(ids, route.review);
      if route.Synced? {
        launched := CreateAttemptsAndEnqueue(sendable, route.diverted);
      } else {
        var n := |recipients|;
        verifying := verifying + set r | r in route.companies && r < n;
        status := if route.Deferred? then CHECKING_INAD else DRAFT;
      }
    }

    /** launchTestSend: one more recipient of the test campaign, launched at once. */
    method LaunchTestSend(blocked: bool, diverted: bool) returns (launched: nat)
      modifies this
      ensures View() == TestSend(old(View()), blocked, diverted) && Keeps(old(View()), View())
      ensures launched == if isTest && !blocked then 1 else 0
      ensures launched == 0 ==> recipients == old(recipients) && attempts == old(attempts) && jobs == old(jobs)
      ensures launched == 1 ==> recipients == old(recipients) + [RecipientStatus.QUEUED] && Served(View(), |recipients| - 1)
      ensures launched == 1 ==> |attempts| == |old(attempts)| + 1 && attempts[..|old(attempts)|] == old(attempts)
      ensures var to := if diverted && channel != SEND then PEC else channel;
        launched == 1 ==> attempts[|old(attempts)|] == Attempt(|old(recipients)|, to, AttemptStatus.QUEUED, 1, None, "")
    {
      TestSendKeeps(View(), blocked, diverted);
      TestSendSends(View(), blocked, diverted);
      CreatedServes(View().(recipients := recipients + [PENDING]), [|recipients|],
        if diverted && channel != SEND then {|recipients|} else {}, |recipients|);
      launched := SendOne(blocked, diverted);
    }

    /** The steps of a test send. */
    method SendOne(blocked: bool, diverted: bool) returns (launched: nat)
      modifies this
      ensures View() == TestSend(old(View()), blocked, diverted)
      ensures launched == if isTest && !blocked then 1 else 0
    {
      launched := 0;
      if !isTest || blocked { return; }
      var r := |recipients|;
      recipients := recipients + [PENDING];
      launched := CreateAttemptsAndEnqueue([r], if diverted && channel != SEND then {r} else {});
    }

    /** finalizeInadCheck; `ready` says that every batch is available. */
    method Finalize(ready: bool, diverted: set<nat>) returns (launched: nat)
      modifies this
      ensures View() == Campaigns.Finalize(old(View()), ready, diverted) && Keeps(old(View()), View())
      ensures status != old(status) <==> old(status) == CHECKING_INAD && ready && old(verifying) == {}
      ensures status != old(status) ==> Sends(old(View()), View(), PendingOf(old(recipients)), diverted)
      ensures status == old(status) ==> View() == old(View())
      ensures status != old(status) ==> EverybodyServed(old(recipients))
    {
      FinalizeKeeps(View(), ready, diverted);
      FinalizeSends(View(), ready, diverted);
      launched := 0;
      if status != CHECKING_INAD || !ready || verifying != {} { return; }
      status := CampaignStatus.QUEUED;
      var ids := Find(PENDING);
      ghost var s := View();
      launched := CreateAttemptsAndEnqueue(ids, if channel == PEC then {} else diverted);
      PendingServed(s, if channel == PEC then {} else diverted);
    }

    /** Whoever was pending is queued, and somebody works on it. */
    predicate EverybodyServed(before: seq<RecipientStatus>)
      reads this
    {
      && |recipients| == |before| && PENDING !in recipients
      && forall r :: 0 <= r < |before| && before[r].PENDING? ==> recipients[r].QUEUED? && Served(View(), r)
    }

    method SkipInadCheck() returns (launched: nat)
      modifies this
      ensures View() == SkipCheck(old(View())) && Keeps(old(View()), View())
      ensures status != old(status) <==> old(status) == CHECKING_INAD
      ensures status != old(status) ==> Sends(old(View()), View(), PendingOf(old(recipients)), {})
      ensures status == old(status) ==> View() == old(View())
      ensures status != old(status) ==> EverybodyServed(old(recipients))
    {
      SkipCheckKeeps(View());
      SkipSends(View());
      launched := 0;
      if status != CHECKING_INAD { return; }
      status := CampaignStatus.QUEUED;
      var ids := Find(PENDING);
      ghost var s := View();
      launched := CreateAttemptsAndEnqueue(ids, {});
      PendingServed(s, {});
    }

    // ----------------------------------------------------------- cancelling

    /** The attempts taken back, one after the other; a job being worked on cannot be removed. */
    method TakeBack(queued: seq<nat>, locked: set<nat>) returns (removed: set<nat>)
      requires queued == WithStatus(recipients, RecipientStatus.QUEUED) && WellFormed(View())
      modifies this`jobs, this`attempts
      ensures forall id: nat :: id in removed <==> TakenBack(old(View()), id, locked)
      ensures |attempts| == |old(attempts)|
      ensures forall id :: 0 <= id < |attempts| ==> attempts[id] == AfterCancel(old(View()), id, locked)
      ensures forall j :: j in jobs <==> j in old(jobs) && !Removed(old(View()), j, locked)
    {
      ghost var s := View();
      var engine := CancelEngine(View());
      removed := {};
      for id := 0 to |attempts|
        invariant |attempts| == |s.attempts|
        invariant forall k: nat :: k in removed <==> k < id && TakenBack(s, k, locked)
        invariant forall k :: 0 <= k < |attempts| ==> attempts[k] == if k < id then AfterCancel(s, k, locked) else s.attempts[k]
        invariant forall j :: j in jobs <==> j in s.jobs && !(j.attempt in removed && j.attempt !in locked && j.engine == engine)
      {
        var live := attempts[id].status.QUEUED? && attempts[id].recipient in queued;
        if live && (channel == SEND || (Job(engine, id) in jobs && id !in locked)) {
          if id !in locked {
            jobs := jobs - {Job(engine, id)};
          }
          removed := removed + {id};
          attempts := attempts[id := attempts[id].(status := AttemptStatus.CANCELLED)];
        }
      }
    }

    method Withdraw(removed: set<nat>, pending: seq<nat>, locked: set<nat>, ghost s: State)
      requires recipients == s.recipients && |attempts| == |s.attempts| && pending == WithStatus(s.recipients, PENDING)
      requires forall id :: 0 <= id < |attempts| ==> attempts[id].recipient == s.attempts[id].recipient
      requires forall id: nat :: id in removed <==> TakenBack(s, id, locked)
      modifies this`recipients
      ensures |recipients| == |s.recipients|
      ensures forall r :: 0 <= r < |recipients| ==> recipients[r] == AfterWithdrawal(s, r, locked)
    {
      var now, before := attempts, recipients;
      var gone := set id | id in removed && id < |now| :: now[id].recipient;
      forall r | 0 <= r < |before| ensures r in gone || r in pending <==> Withdrawn(s, r, locked) {
        WithdrawnIs(s, now, removed, gone, pending, locked, r);
      }
      recipients := seq(|before|, r requires 0 <= r < |before| =>
        if r in gone || r in pending then RecipientStatus.CANCELLED else before[r]);
    }

    method Cancel(locked: set<nat>)
      requires WellFormed(View())
      modifies this
      ensures View() == Campaigns.Cancel(old(View()), locked) && Keeps(old(View()), View())
      ensures if old(status) == CampaignStatus.QUEUED || old(status) == CHECKING_INAD then Cancels(old(View()), View(), locked)
        else View() == old(View())
    {
      CancelKeeps(View(), locked);
      CancelEach(View(), locked);
      TakeAllBack(locked);
    }

    /** The steps of a cancellation. */
    method TakeAllBack(locked: set<nat>)
      requires WellFormed(View())
      modifies this
      ensures View() == Campaigns.Cancel(old(View()), locked)
    {
      if status != CampaignStatus.QUEUED && status != CHECKING_INAD { return; }
      ghost var s, t := View(), Campaigns.Cancel(View(), locked);
      var queued := Find(RecipientStatus.QUEUED);
      var pending := Find(PENDING);
      var removed := TakeBack(queued, locked);
      assert attempts == t.attempts && jobs == t.jobs;
      Withdraw(removed, pending, locked, s);
      assert recipients == t.recipients;
      status := CampaignStatus.CANCELLED;
    }

    // ----------------------------------------------------------- sending again

    /** The next attempt, on the channel of the last one, with the protocol already obtained if any. */
    method InsertNext(r: nat) returns (id: nat, attempt: Attempt)
      modifies this`attempts
      ensures id == old(|attempts|) && attempt == NextAttempt(old(View()), r) && attempts == old(attempts) + [attempt]
    {
      var last := LastOf(attempts, r);
      var nextAttemptNumber := if last.Some? then attempts[last.value].number + 1 else 1;
      var inheritedProtocol := None;
      if channel == SEND || protocolla {
        inheritedProtocol := LastProtocol(attempts, r);
      }
      var effectiveChannel := if last.Some? then attempts[last.value].channel else channel;
      attempt := Attempt(r, effectiveChannel, AttemptStatus.QUEUED, nextAttemptNumber, inheritedProtocol, "");
      var ids := Insert([attempt]);
      id := ids[0];
    }

    /** retryRecipient: for somebody failed, in a campaign not cancelled. The recipient is queued again, once more
        somebody works on it, and the campaign is open. */
    method RetryRecipient(r: nat) returns (requeued: bool)
      modifies this
      ensures View() == Retry(old(View()), r) && Keeps(old(View()), View())
      ensures requeued <==> old(status) != CampaignStatus.CANCELLED && r < |old(recipients)| && old(recipients)[r].FAILED?
      ensures requeued ==> SentAgain(old(View()), View(), r) && JobAgain(old(View()), View())
      ensures !requeued ==> View() == old(View())
      ensures requeued && old(Safe(View())) ==> InHand(View(), r)
    {
      RetryKeeps(View(), r);
      RetryEach(View(), r);
      if Safe(View()) && Retriable(View(), r) {
        RetryServes(View(), r);
      }
      requeued := Requeue(r);
    }

    /** The steps of a retry. */
    method Requeue(r: nat) returns (requeued: bool)
      modifies this
      ensures View() == Retry(old(View()), r) && requeued == Retriable(old(View()), r)
    {
      if status == CampaignStatus.CANCELLED || r >= |recipients| || recipients[r] != RecipientStatus.FAILED { return false; }
      var id, attempt := InsertNext(r);
      recipients := recipients[r := RecipientStatus.QUEUED];
      failedCount := failedCount - 1;
      if status == COMPLETED || status == CampaignStatus.FAILED {
        status := CampaignStatus.QUEUED;
      }
      EnqueueRetry(id, attempt.channel, attempt.protocol);
      requeued := true;
    }

    /** The queue of a retry; none for SEND with a protocol. */
    method EnqueueRetry(id: nat, effectiveChannel: Channel, inheritedProtocol: Option<nat>)
      modifies this`jobs
      ensures jobs == old(jobs) +
        if effectiveChannel != SEND && (!protocolla || inheritedProtocol.Some?) then {Job(Queue(effectiveChannel), id)}
        else if inheritedProtocol.None? then {Job(Protocollazione, id)}
        else {}
    {
      if effectiveChannel != SEND && !protocolla {
        AddBulk(Queue(effectiveChannel), [Job(Queue(effectiveChannel), id)]);
      } else if effectiveChannel != SEND && inheritedProtocol.Some? {
        AddBulk(Queue(effectiveChannel), [Job(Queue(effectiveChannel), id)]);
      } else if inheritedProtocol.None? {
        AddBulk(Protocollazione, [Job(Protocollazione, id)]);
      }
    }

    method ForceFailed(r: nat)
      requires r < |recipients|
      modifies this`recipients, this`sentCount, this`failedCount
      ensures View() == Forced(old(View()), r)
    {
      if recipients[r] != RecipientStatus.FAILED {
        var wasSent := recipients[r] == SENT;
        recipients := recipients[r := RecipientStatus.FAILED];
        if wasSent {
          sentCount := sentCount - 1;
        }
        failedCount := failedCount + 1;
      }
    }

    /** updateRecipientAddressAndRetry: whatever the recipient's status it is sent to again, unless the campaign
        is cancelled. */
    method UpdateRecipientAddressAndRetry(r: nat, acceptable: bool) returns (requeued: bool)
      modifies this
      ensures View() == CorrectAddress(old(View()), r, acceptable) && Keeps(old(View()), View())
      ensures requeued == ((channel == POSTAL || channel == SEND) && acceptable && r < |old(recipients)|
        && old(status) != CampaignStatus.CANCELLED)
      ensures requeued ==> SentAgain(old(View()), View(), r) && JobAgain(old(View()), View())
      ensures !requeued ==> attempts == old(attempts) && jobs == old(jobs)
      ensures requeued && old(Safe(View())) ==> InHand(View(), r)
    {
      CorrectAddressKeeps(View(), r, acceptable);
      CorrectAddressEach(View(), r, acceptable);
      if Safe(View()) && (channel == POSTAL || channel == SEND) && acceptable && r < |recipients| && status != CampaignStatus.CANCELLED {
        CorrectAddressServes(View(), r, acceptable);
      }
      requeued := ForceAndRetry(r, acceptable);
    }

    /** The steps of a correction. */
    method ForceAndRetry(r: nat, acceptable: bool) returns (requeued: bool)
      modifies this
      ensures View() == CorrectAddress(old(View()), r, acceptable)
      ensures requeued == (if (channel == POSTAL || channel == SEND) && acceptable && r < |old(recipients)|
        then old(status) != CampaignStatus.CANCELLED else false)
    {
      if (channel != POSTAL && channel != SEND) || !acceptable || r >= |recipients| { return false; }
      ForceFailed(r);
      requeued := Requeue(r);
    }

    /** resolvePecReview: whoever was held back is sent to on the campaign's own channel. */
    method ResolvePecReview(r: nat) returns (requeued: bool)
      modifies this
      ensures View() == ResolveReview(old(View()), r) && Keeps(old(View()), View())
      ensures requeued <==> r < |old(recipients)| && old(recipients)[r].PENDING_REVIEW?
      ensures !requeued ==> View() == old(View())
      ensures requeued ==> InHand(View(), r) && attempts == old(attempts) + [Attempt(r, channel, AttemptStatus.QUEUED, 1, None, "")]
    {
      ResolveReviewKeeps(View(), r);
      if r < |recipients| && recipients[r].PENDING_REVIEW? {
        ResolveReviewServes(View(), r);
      }
      requeued := Release(r);
    }

    /** The steps of a review. */
    method Release(r: nat) returns (requeued: bool)
      modifies this
      ensures View() == ResolveReview(old(View()), r)
      ensures requeued == (r < |old(recipients)| && old(recipients)[r].PENDING_REVIEW?)
    {
      if r >= |recipients| || recipients[r] != PENDING_REVIEW { return false; }
      recipients := recipients[r := PENDING];
      var _ := CreateAttemptsAndEnqueue([r], {});
      if status == COMPLETED || status == CampaignStatus.FAILED {
        status := CampaignStatus.QUEUED;
      }
      requeued := true;
    }

    method ResendSafe(r: nat, appIoDelivered: bool) returns (resent: bool)
      modifies this
      ensures View() == Resend(old(View()), r, appIoDelivered) && Keeps(old(View()), View())
      ensures Resends(old(View()), View(), r, appIoDelivered)
      ensures old(Safe(View())) && old(ResendsTo(View(), r)) ==> InHand(View(), r)
      ensures resent ==> r in resentWith && resentWith[r] == content
    {
      ResendKeeps(View(), r, appIoDelivered);
      ResendEach(View(), r, appIoDelivered);
      if Safe(View()) && ResendsTo(View(), r) {
        ResendServes(View(), r, appIoDelivered);
      }
      resent := SendAgain(r, appIoDelivered);
    }

    /** The steps of a resend. */
    method SendAgain(r: nat, appIoDelivered: bool) returns (resent: bool)
      modifies this
      ensures View() == Resend(old(View()), r, appIoDelivered)
      ensures resent ==> r in resentWith && resentWith[r] == content
    {
      var last := LastOf(attempts, r);
      if last.None? || status == CampaignStatus.CANCELLED || r >= |recipients| { return false; }
      if r in resentWith && resentWith[r] == content { return false; }
      var through := attempts[last.value].channel;
      if through != POSTAL && through != SEND {
        ForceFailed(r);
        var _ := Requeue(r);
      } else if !appIoDelivered {
        return false;
      }
      resentWith := resentWith[r := content];
      resent := true;
    }

    /** attachPostalTrackingId: the id stays with the attempt, validated or not. When a failed attempt turns out
        to have been sent, the recipient can no more be retried, so nothing is sent twice. */
    method AttachPostalTrackingId(r: nat, attemptNumber: nat, idPro: string, valid: bool) returns (accepted: bool)
      modifies this
      ensures View() == Attach(old(View()), r, attemptNumber, idPro, valid) && Keeps(old(View()), View())
      ensures accepted == (valid && idPro != "" && old(Attachable(View(), r, attemptNumber)))
      ensures idPro != "" && old(Attachable(View(), r, attemptNumber)) ==>
        var id := AttemptNumbered(old(attempts), r, attemptNumber).value;
        && |attempts| == |old(attempts)| && attempts[id].tracking == idPro
        && (accepted && old(attempts)[id].status.FAILED? ==> attempts[id].status.SUCCESS? && !Retriable(View(), r))
    {
      AttachKeeps(View(), r, attemptNumber, idPro, valid);
      accepted := SaveAndValidate(r, attemptNumber, idPro, valid);
    }

    /** The steps of attaching an id. */
    method SaveAndValidate(r: nat, attemptNumber: nat, idPro: string, valid: bool) returns (accepted: bool)
      modifies this
      ensures View() == Attach(old(View()), r, attemptNumber, idPro, valid)
      ensures accepted == (valid && idPro != "" && old(Attachable(View(), r, attemptNumber)))
    {
      var id := AttemptNumbered(attempts, r, attemptNumber);
      if idPro == "" || r >= |recipients| || id.None? || attempts[id.value].tracking != "" { return false; }
      var attempt := attempts[id.value];
      attempts := attempts[id.value := attempt.(tracking := idPro)];
      if !valid { return false; }
      if attempt.status.FAILED? {
        attempts := attempts[id.value := attempts[id.value].(status := SUCCESS)];
        if recipients[r] == RecipientStatus.FAILED {
          recipients := recipients[r := SENT];
          failedCount := failedCount - 1;
          sentCount := sentCount + 1;
        }
      }
      accepted := true;
    }

    // ----------------------------------------------------------- completion and bulk retry

    method CheckAndComplete()
      modifies this`status
      ensures View() == Campaigns.CheckAndComplete(old(View())) && ClosesAs(old(View()), View())
    {
      Closes(View());
      var pending := Count(PENDING);
      var queued := Count(RecipientStatus.QUEUED);
      if pending + queued > 0 { return; }
      var sent := Count(SENT);
      var failed := Count(RecipientStatus.FAILED);
      var finalStatus := if sent == 0 && failed > 0 then CampaignStatus.FAILED else COMPLETED;
      if status == CampaignStatus.QUEUED && !isTest {
        status := finalStatus;
      }
    }

    /** runOne for the ids of one batch. */
    method RetryBatch(ids: seq<nat>, from: nat, to: nat, failed0: seq<nat>, ghost s: State)
      returns (requeued: nat, failed: seq<nat>)
      requires from <= to <= |ids| && View() == RetryAll(s, ids[..from]) && failed0 == RefusedIds(s, ids[..from])
      modifies this
      ensures View() == RetryAll(s, ids[..to]) && failed == RefusedIds(s, ids[..to])
      ensures requeued + |failed| == to - from + |failed0|
    {
      requeued, failed := 0, failed0;
      for k := from to to
        invariant requeued + |failed| == k - from + |failed0|
        invariant View() == RetryAll(s, ids[..k]) && failed == RefusedIds(s, ids[..k])
      {
        RetryOneMore(s, ids, k);
        var ok := Requeue(ids[k]);
        if ok {
          requeued := requeued + 1;
        } else {
          failed := failed + [ids[k]];
        }
      }
    }

    /** CampaignBulkRetryProcessor.process: batches of 10, every id once, one after the other here. */
    method BulkRetry(ids: seq<nat>) returns (requeued: nat, processed: nat, failed: seq<nat>)
      modifies this
      ensures View() == RetryAll(old(View()), ids) && failed == RefusedIds(old(View()), ids)
      ensures processed == |ids| == requeued + |failed|
    {
      ghost var s := View();
      requeued, processed, failed := 0, 0, [];
      while processed < |ids|
        invariant processed <= |ids| && processed == requeued + |failed|
        invariant View() == RetryAll(s, ids[..processed]) && failed == RefusedIds(s, ids[..processed])
      {
        var next := Min(processed + 10, |ids|);
        var n;
        n, failed := RetryBatch(ids, processed, next, failed, s);
        requeued, processed := requeued + n, next;
      }
      assert ids[..processed] == ids;
    }
  }

  /** The recipients that stay sendable. */
  lemma PendingServed(s: State, diverted: set<nat>)
    ensures var t := CreatedForPending(s, diverted);
      && |t.recipients| == |s.recipients| && PENDING !in t.recipients
      && forall r :: 0 <= r < |s.recipients| && s.recipients[r].PENDING? ==> t.recipients[r].QUEUED? && Served(t, r)
  {
    var ids := WithStatus(s.recipients, PENDING);
    forall r | 0 <= r < |s.recipients| && s.recipients[r].PENDING?
      ensures r in ids && Served(Created(s, ids, diverted), r)
    {
      assert r in ids;
      CreatedServes(s, ids, diverted, r);
    }
  }

  function Kept(s: State, ids: seq<nat>, review: set<nat>): seq<nat> {
    if ids == [] then []
    else
      var before, r := Kept(s, ids[..|ids| - 1], review), ids[|ids| - 1];
      if s.channel == PEC && r in review then before else before + [r]
  }

  /** The first i of the ids have been dealt with. */
  predicate HeldUpTo(s: State, recipients: seq<RecipientStatus>, ids: seq<nat>, i: nat, review: set<nat>)
    requires i <= |ids|
  {
    && |recipients| == |s.recipients|
    && (forall k :: 0 <= k < i && ids[k] < |s.recipients| ==> recipients[ids[k]] == HeldStatus(s, ids[k], review))
    && (forall k :: i <= k < |ids| && ids[k] < |s.recipients| ==> recipients[ids[k]] == s.recipients[ids[k]])
    && (forall r :: 0 <= r < |s.recipients| && s.recipients[r] != PENDING ==> recipients[r] == s.recipients[r])
  }

  lemma AllHeld(s: State, recipients: seq<RecipientStatus>, ids: seq<nat>, review: set<nat>)
    requires ids == WithStatus(s.recipients, PENDING) && HeldUpTo(s, recipients, ids, |ids|, review)
    ensures recipients == Held(s, review).recipients && Kept(s, ids, review) == WithStatus(recipients, PENDING)
  {
    KeptIsPending(s, s.recipients, Held(s, review).recipients, review);
    forall r | 0 <= r < |s.recipients| ensures recipients[r] == HeldStatus(s, r, review) {
      if s.recipients[r] == PENDING {
        assert r in ids;
      }
    }
  }

  lemma WithStatusAre(rs: seq<RecipientStatus>, status: RecipientStatus)
    ensures var ids := WithStatus(rs, status);
      forall i :: 0 <= i < |ids| ==> ids[i] < |rs| && rs[ids[i]] == status
  {
  }

  lemma HeldOneMore(s: State, recipients: seq<RecipientStatus>, ids: seq<nat>, i: nat, review: set<nat>)
    requires i < |ids| && HeldUpTo(s, recipients, ids, i, review)
    requires forall k :: 0 <= k < |ids| ==> ids[k] < |s.recipients| && s.recipients[ids[k]] == PENDING
    requires forall j, k :: 0 <= j < k < |ids| ==> ids[j] < ids[k]
    ensures recipients[ids[i]] == PENDING
    ensures HeldUpTo(s, recipients[ids[i] := HeldStatus(s, ids[i], review)], ids, i + 1, review)
  {
  }

  lemma KeptPush(s: State, ids: seq<nat>, r: nat, review: set<nat>)
    ensures Kept(s, ids + [r], review) == Kept(s, ids, review) + if s.channel == PEC && r in review then [] else [r]
  {
  }

  lemma WithStatusPush(rs: seq<RecipientStatus>)
    requires rs != []
    ensures var n := |rs| - 1;
      WithStatus(rs, PENDING) == if rs[n] == PENDING then WithStatus(rs[..n], PENDING) + [n] else WithStatus(rs[..n], PENDING)
  {
  }

  lemma {:induction false} KeptIsPending(s: State, before: seq<RecipientStatus>, after: seq<RecipientStatus>, review: set<nat>)
    requires |before| == |after| <= |s.recipients|
    requires forall i :: 0 <= i < |before| ==> before[i] == s.recipients[i] && after[i] == HeldStatus(s, i, review)
    ensures Kept(s, WithStatus(before, PENDING), review) == WithStatus(after, PENDING)
  {
    if before != [] {
      var n := |before| - 1;
      KeptIsPending(s, before[..n], after[..n], review);
      KeptPush(s, WithStatus(before[..n], PENDING), n, review);
      WithStatusPush(before);
      WithStatusPush(after);
    }
  }

  lemma RetryOneMore(s: State, ids: seq<nat>, n: nat)
    requires n < |ids|
    ensures var before := RetryAll(s, ids[..n]);
      && RetryAll(s, ids[..n + 1]) == Retry(before, ids[n])
      && RefusedIds(s, ids[..n + 1]) == RefusedIds(s, ids[..n]) + if Retriable(before, ids[n]) then [] else [ids[n]]
  {
    assert ids[..n + 1][..n] == ids[..n];
  }

  lemma PendingListed(rs: seq<RecipientStatus>)
    ensures PENDING in rs <==> WithStatus(rs, PENDING) != []
  {
  }

  lemma WithdrawnIs(s: State, now: seq<Attempt>, removed: set<nat>, gone: set<nat>, pending: seq<nat>, locked: set<nat>, r: nat)
    requires r < |s.recipients| && |now| == |s.attempts| && pending == WithStatus(s.recipients, PENDING)
    requires forall id :: 0 <= id < |now| ==> now[id].recipient == s.attempts[id].recipient
    requires forall id: nat :: id in removed <==> TakenBack(s, id, locked)
    requires gone == set id | id in removed && id < |now| :: now[id].recipient
    ensures r in gone || r in pending <==> Withdrawn(s, r, locked)
  {
  }

  lemma Regroup<T>(a: seq<T>, b: seq<T>, c: seq<T>)
    ensures (a + b) + c == a + (b + c)
  {
  }

  lemma FirstAttemptsSplit(s: State, view: State, ids: seq<nat>, diverted: set<nat>, from: nat, to: nat)
    requires from <= to <= |ids| && view.channel == s.channel
    ensures FirstAttempts(s, ids[..to], diverted)
      == FirstAttempts(s, ids[..from], diverted) + FirstAttempts(view, ids[from..to], diverted)
  {
  }

  predicate IsChunkJob(s: State, ids: seq<nat>, attemptIds: seq<nat>, diverted: set<nat>, n: nat, j: Job)
    requires |attemptIds| == |ids| && n <= |ids|
  {
    exists i :: 0 <= i < n && j == Job(EngineFor(s, ids[i], diverted), attemptIds[i])
  }

  lemma ChunkJobs(view: State, s: State, ids: seq<nat>, attemptIds: seq<nat>, diverted: set<nat>, from: nat, to: nat, j: Job)
    requires view.channel == s.channel && view.protocolla == s.protocolla
    requires |attemptIds| == |ids| && forall i :: 0 <= i < |ids| ==> attemptIds[i] == |s.attempts| + i
    requires from <= to <= |ids|
    ensures IsFirstJob(s, ids, diverted, to, j)
      <==> IsFirstJob(s, ids, diverted, from, j) || IsChunkJob(view, ids[from..to], attemptIds[from..to], diverted, to - from, j)
  {
    if IsFirstJob(s, ids, diverted, to, j) && !IsFirstJob(s, ids, diverted, from, j) {
      var i := j.attempt - |s.attempts| - from;
      assert j == Job(EngineFor(view, ids[from..to][i], diverted), attemptIds[from..to][i]);
    }
  }
}
