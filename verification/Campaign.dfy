/** A campaign as the database and the queues hold it, and every operation on it as one step:
    the service methods, and the workers that run beside them. */
module Campaigns {
  import opened Text

  datatype Channel = EMAIL | PEC | APP_IO | POSTAL | SEND

  /** The worker queues: one per channel but SEND, which is polled, and one for protocol numbers. */
  datatype Engine = Queue(channel: Channel) | Protocollazione

  datatype CampaignStatus = DRAFT | CHECKING_INAD | QUEUED | COMPLETED | FAILED | CANCELLED

  datatype RecipientStatus = PENDING | PENDING_REVIEW | QUEUED | SENT | FAILED | CANCELLED

  datatype AttemptStatus = QUEUED | PROCESSING | SUCCESS | FAILED | CANCELLED

  /** `protocol` stands for protocolNumber, protocolYear and protocolledAt, written together;
      `tracking` is empty where postalTrackingId is NULL. */
  datatype Attempt = Attempt(
    recipient: nat, channel: Channel, status: AttemptStatus, number: nat, protocol: Option<nat>, tracking: string)

  /** A job not finished yet; its id is the id of its attempt. */
  datatype Job = Job(engine: Engine, attempt: nat)

  /** Recipients and attempts are named by their position. `content` is the signature of subject and
      body, `resentWith` the signature each recipient was last sent again with. */
  datatype State = State(
    channel: Channel, protocolla: bool, isTest: bool, content: string,
    status: CampaignStatus, sentCount: int, failedCount: int,
    recipients: seq<RecipientStatus>, attempts: seq<Attempt>, jobs: set<Job>,
    verifying: set<nat>, resentWith: map<nat, string>)

  predicate WellFormed(s: State) {
    && (forall i :: 0 <= i < |s.attempts| ==> s.attempts[i].recipient < |s.recipients|)
    && (forall j :: j in s.jobs ==> j.attempt < |s.attempts|)
    && (forall r :: r in s.verifying ==> r < |s.recipients|)
  }

  function ToCampaign(s: State, status: CampaignStatus): State {
    s.(status := status)
  }

  /** Positions of the recipients with a status. */
  function WithStatus(recipients: seq<RecipientStatus>, status: RecipientStatus): (ids: seq<nat>)
    ensures forall r: nat :: r in ids <==> r < |recipients| && recipients[r] == status
    ensures forall i, j :: 0 <= i < j < |ids| ==> ids[i] < ids[j]
  {
    if recipients == [] then []
    else
      var n := |recipients| - 1;
      var before := WithStatus(recipients[..n], status);
      assert forall i :: 0 <= i < |before| ==> before[i] in before;
      before + if recipients[n] == status then [n] else []
  }

  // ------------------------------------------------------------- attempts and jobs

  predicate NeedsProtocol(s: State) {
    s.channel == SEND || s.protocolla
  }

  function ChannelOf(s: State, r: nat, diverted: set<nat>): Channel {
    if r in diverted then PEC else s.channel
  }

  function FirstAttempt(s: State, r: nat, diverted: set<nat>): Attempt {
    Attempt(r, ChannelOf(s, r, diverted), AttemptStatus.QUEUED, 1, None, "")
  }

  function EngineFor(s: State, r: nat, diverted: set<nat>): Engine {
    if NeedsProtocol(s) then Protocollazione else Queue(ChannelOf(s, r, diverted))
  }

  function FirstAttempts(s: State, ids: seq<nat>, diverted: set<nat>): (r: seq<Attempt>)
    ensures |r| == |ids| && forall i :: 0 <= i < |ids| ==> r[i] == FirstAttempt(s, ids[i], diverted)
  {
    seq(|ids|, i requires 0 <= i < |ids| => FirstAttempt(s, ids[i], diverted))
  }

  predicate IsFirstJob(s: State, ids: seq<nat>, diverted: set<nat>, n: nat, j: Job)
    requires n <= |ids|
  {
    |s.attempts| <= j.attempt < |s.attempts| + n && j.engine == EngineFor(s, ids[j.attempt - |s.attempts|], diverted)
  }

  /** One job for each new attempt, the i-th carrying the id of the i-th. */
  function FirstJobs(s: State, ids: seq<nat>, diverted: set<nat>, n: nat): (r: set<Job>)
    requires n <= |ids|
    ensures forall j :: j in r <==> IsFirstJob(s, ids, diverted, n, j)
  {
    set i | 0 <= i < n :: Job(EngineFor(s, ids[i], diverted), |s.attempts| + i)
  }

  function PendingToQueued(recipients: seq<RecipientStatus>, ids: seq<nat>): (r: seq<RecipientStatus>)
    ensures |r| == |recipients|
    ensures forall i :: 0 <= i < |r| ==>
      r[i] == if recipients[i] == PENDING && i in ids then RecipientStatus.QUEUED else recipients[i]
  {
    seq(|recipients|, i requires 0 <= i < |recipients| =>
      if recipients[i] == PENDING && i in ids then RecipientStatus.QUEUED else recipients[i])
  }

  /** createAttemptsAndEnqueue. */
  function Created(s: State, ids: seq<nat>, diverted: set<nat>): State {
    s.(attempts := s.attempts + FirstAttempts(s, ids, diverted),
       jobs := s.jobs + FirstJobs(s, ids, diverted, |ids|),
       recipients := PendingToQueued(s.recipients, ids))
  }

  function CreatedForPending(s: State, diverted: set<nat>): State {
    Created(s, WithStatus(s.recipients, PENDING), diverted)
  }

  // ------------------------------------------------------------- launch

  /** What launch meets: a guard that sends it back to draft; no check of digital domiciles (switched
      off, single send, SEND, or nobody with a tax id); the synchronous check with its outcome; the
      bulk check, after a partial synchronous one if the quota ended midway, with the companies given
      to Registro Imprese; the same when a source is unreachable. */
  datatype Route =
    | Blocked
    | Direct
    | Synced(diverted: set<nat>, review: set<nat>)
    | Deferred(review: set<nat>, companies: set<nat>)
    | Unreachable(review: set<nat>, companies: set<nat>)

  /** A company whose registered PEC differs waits for the operator, in PEC campaigns only. */
  function HeldStatus(s: State, r: nat, review: set<nat>): RecipientStatus
    requires r < |s.recipients|
  {
    if s.channel == PEC && s.recipients[r] == PENDING && r in review then PENDING_REVIEW else s.recipients[r]
  }

  function Held(s: State, review: set<nat>): (t: State)
    ensures t.(recipients := s.recipients) == s && |t.recipients| == |s.recipients|
    ensures forall r :: 0 <= r < |s.recipients| ==> t.recipients[r] == HeldStatus(s, r, review)
  {
    s.(recipients := seq(|s.recipients|, r requires 0 <= r < |s.recipients| => HeldStatus(s, r, review)))
  }

  function Verifying(s: State, companies: set<nat>): State {
    s.(verifying := s.verifying + set r | r in companies && r < |s.recipients|)
  }

  function Launch(s: State, route: Route): State {
    if !s.status.DRAFT? || route == Blocked then s
    else
      var q := ToCampaign(s, CampaignStatus.QUEUED);
      if PENDING !in s.recipients then q else Launched(q, route)
  }

  /** The launch of a queued campaign with somebody pending. */
  function Launched(q: State, route: Route): State
    requires !route.Blocked?
  {
    if q.channel == SEND || route == Direct then CreatedForPending(q, {})
    else match route
      case Synced(diverted, review) => CreatedForPending(Held(q, review), diverted)
      case Deferred(review, companies) => ToCampaign(Verifying(Held(q, review), companies), CHECKING_INAD)
      case Unreachable(review, companies) => ToCampaign(Verifying(Held(q, review), companies), DRAFT)
  }

  function Finalize(s: State, ready: bool, diverted: set<nat>): State {
    if !s.status.CHECKING_INAD? || !ready || s.verifying != {} then s
    else CreatedForPending(ToCampaign(s, CampaignStatus.QUEUED), if s.channel == PEC then {} else diverted)
  }

  function SkipCheck(s: State): State {
    if !s.status.CHECKING_INAD? then s
    else CreatedForPending(ToCampaign(s, CampaignStatus.QUEUED), {})
  }

  /** launchTestSend on the test campaign: one more recipient, launched at once. */
  function TestSend(s: State, blocked: bool, diverted: bool): State {
    if !s.isTest || blocked then s
    else
      var r := |s.recipients|;
      Created(s.(recipients := s.recipients + [PENDING]), [r], if diverted && s.channel != SEND then {r} else {})
  }

  // ------------------------------------------------------------- cancel

  /** An attempt that cancel takes back: still queued, of a queued recipient, and in a campaign other
      than SEND with its job on the campaign's own queue and not being worked on. */
  predicate TakenBack(s: State, id: nat, locked: set<nat>) {
    && id < |s.attempts| && s.attempts[id].status.QUEUED?
    && s.attempts[id].recipient < |s.recipients| && s.recipients[s.attempts[id].recipient].QUEUED?
    && (s.channel != SEND ==> Job(Queue(s.channel), id) in s.jobs && id !in locked)
  }

  predicate Withdrawn(s: State, r: nat, locked: set<nat>)
    requires r < |s.recipients|
  {
    s.recipients[r].PENDING? || exists id :: 0 <= id < |s.attempts| && TakenBack(s, id, locked) && s.attempts[id].recipient == r
  }

  /** A job that cancel removes from its queue. */
  predicate Removed(s: State, j: Job, locked: set<nat>) {
    TakenBack(s, j.attempt, locked) && j.attempt !in locked && j.engine == CancelEngine(s)
  }

  function CancelEngine(s: State): Engine {
    if s.channel == SEND then Protocollazione else Queue(s.channel)
  }

  function AfterCancel(s: State, id: nat, locked: set<nat>): Attempt
    requires id < |s.attempts|
  {
    if TakenBack(s, id, locked) then s.attempts[id].(status := AttemptStatus.CANCELLED) else s.attempts[id]
  }

  function AfterWithdrawal(s: State, r: nat, locked: set<nat>): RecipientStatus
    requires r < |s.recipients|
  {
    if Withdrawn(s, r, locked) then RecipientStatus.CANCELLED else s.recipients[r]
  }

  function Cancel(s: State, locked: set<nat>): State {
    if !s.status.QUEUED? && !s.status.CHECKING_INAD? then s
    else s.(
      status := CampaignStatus.CANCELLED,
      attempts := seq(|s.attempts|, id requires 0 <= id < |s.attempts| => AfterCancel(s, id, locked)),
      recipients := seq(|s.recipients|, r requires 0 <= r < |s.recipients| => AfterWithdrawal(s, r, locked)),
      jobs := set j | j in s.jobs && !Removed(s, j, locked))
  }

  // ------------------------------------------------------------- retries

  predicate Counts(a: Attempt, r: nat, protocolled: bool) {
    a.recipient == r && (protocolled ==> a.protocol.Some?)
  }

  /** The recipient's attempt with the highest number, among all or among those with a protocol. */
  function LastAmong(attempts: seq<Attempt>, r: nat, protocolled: bool): (last: Option<nat>)
    ensures last.Some? ==> last.value < |attempts| && Counts(attempts[last.value], r, protocolled)
    ensures last.Some? ==> forall i :: 0 <= i < |attempts| && Counts(attempts[i], r, protocolled) ==> attempts[i].number <= attempts[last.value].number
    ensures last.None? ==> forall i :: 0 <= i < |attempts| ==> !Counts(attempts[i], r, protocolled)
  {
    if attempts == [] then None
    else
      var n := |attempts| - 1;
      var before := LastAmong(attempts[..n], r, protocolled);
      if Counts(attempts[n], r, protocolled) && (before.None? || attempts[before.value].number <= attempts[n].number) then Some(n)
      else before
  }

  function LastOf(attempts: seq<Attempt>, r: nat): Option<nat> {
    LastAmong(attempts, r, false)
  }

  /** The protocol a retry inherits. */
  function LastProtocol(attempts: seq<Attempt>, r: nat): Option<nat> {
    var last := LastAmong(attempts, r, true);
    if last.Some? then attempts[last.value].protocol else None
  }

  predicate Retriable(s: State, r: nat) {
    !s.status.CANCELLED? && r < |s.recipients| && s.recipients[r].FAILED?
  }

  function NextAttempt(s: State, r: nat): Attempt {
    var last := LastOf(s.attempts, r);
    Attempt(r, if last.Some? then s.attempts[last.value].channel else s.channel, AttemptStatus.QUEUED,
      if last.Some? then s.attempts[last.value].number + 1 else 1,
      if NeedsProtocol(s) then LastProtocol(s.attempts, r) else None, "")
  }

  /** The job of a retry; a SEND attempt that already has its protocol is left to the poller. */
  function RetryJobs(s: State, a: Attempt): set<Job> {
    if a.channel != SEND && (!s.protocolla || a.protocol.Some?) then {Job(Queue(a.channel), |s.attempts|)}
    else if a.protocol.None? then {Job(Protocollazione, |s.attempts|)}
    else {}
  }

  function Reopened(s: State): State {
    if s.status.COMPLETED? || s.status.FAILED? then ToCampaign(s, CampaignStatus.QUEUED) else s
  }

  function Requeued(s: State, r: nat): State
    requires r < |s.recipients|
  {
    var a := NextAttempt(s, r);
    s.(attempts := s.attempts + [a], recipients := s.recipients[r := RecipientStatus.QUEUED],
       failedCount := s.failedCount - 1, jobs := s.jobs + RetryJobs(s, a))
  }

  function Retry(s: State, r: nat): State {
    if Retriable(s, r) then Reopened(Requeued(s, r)) else s
  }

  /** A recipient not failed yet is made so, and counted so, before it is retried. */
  function Forced(s: State, r: nat): State
    requires r < |s.recipients|
  {
    if s.recipients[r].FAILED? then s
    else s.(recipients := s.recipients[r := RecipientStatus.FAILED], failedCount := s.failedCount + 1,
      sentCount := s.sentCount - if s.recipients[r].SENT? then 1 else 0)
  }

  function CorrectAddress(s: State, r: nat, acceptable: bool): State {
    if (s.channel != POSTAL && s.channel != SEND) || !acceptable || r >= |s.recipients| then s
    else Retry(Forced(s, r), r)
  }

  function ResolveReview(s: State, r: nat): State {
    if r >= |s.recipients| || !s.recipients[r].PENDING_REVIEW? then s
    else Reopened(Created(s.(recipients := s.recipients[r := PENDING]), [r], {}))
  }

  /** POSTAL and SEND are never sent twice: there only the App IO message goes out again. */
  function Resend(s: State, r: nat, appIoDelivered: bool): State {
    var last := LastOf(s.attempts, r);
    if last.None? || s.status.CANCELLED? || r >= |s.recipients| then s
    else if r in s.resentWith && s.resentWith[r] == s.content then s
    else if s.attempts[last.value].channel != POSTAL && s.attempts[last.value].channel != SEND then
      Retry(Forced(s, r), r).(resentWith := s.resentWith[r := s.content])
    else if appIoDelivered then s.(resentWith := s.resentWith[r := s.content])
    else s
  }

  function AttemptNumbered(attempts: seq<Attempt>, r: nat, number: nat): (id: Option<nat>)
    ensures id.Some? ==> id.value < |attempts|
    ensures id.Some? ==> attempts[id.value].recipient == r && attempts[id.value].channel == POSTAL
    ensures id.Some? ==> attempts[id.value].number == number
    ensures id.None? ==> forall i :: 0 <= i < |attempts| && attempts[i].recipient == r && attempts[i].channel == POSTAL ==>
      attempts[i].number != number
  {
    if attempts == [] then None
    else
      var n := |attempts| - 1;
      var before := AttemptNumbered(attempts[..n], r, number);
      if before.Some? then before
      else if attempts[n].recipient == r && attempts[n].channel == POSTAL && attempts[n].number == number then Some(n)
      else None
  }

  /** The sending turns out to have happened after all. */
  function Promoted(s: State, r: nat): State
    requires r < |s.recipients|
  {
    if s.recipients[r].FAILED? then
      s.(recipients := s.recipients[r := SENT], failedCount := s.failedCount - 1, sentCount := s.sentCount + 1)
    else s
  }

  /** attachPostalTrackingId: the id is saved first, then checked against GlobalCom. */
  function Attach(s: State, r: nat, number: nat, idPro: string, valid: bool): State {
    var id := AttemptNumbered(s.attempts, r, number);
    if idPro == "" || r >= |s.recipients| || id.None? || s.attempts[id.value].tracking != "" then s
    else
      var a := s.attempts[id.value];
      if valid && a.status.FAILED? then
        Promoted(s.(attempts := s.attempts[id.value := a.(tracking := idPro, status := SUCCESS)]), r)
      else s.(attempts := s.attempts[id.value := a.(tracking := idPro)])
  }

  // ------------------------------------------------------------- completion

  function CheckAndComplete(s: State): State {
    if PENDING in s.recipients || RecipientStatus.QUEUED in s.recipients then s
    else if !s.status.QUEUED? || s.isTest then s
    else if SENT !in s.recipients && RecipientStatus.FAILED in s.recipients then ToCampaign(s, CampaignStatus.FAILED)
    else ToCampaign(s, COMPLETED)
  }

  // ------------------------------------------------------------- the workers

  /** The end of one sending, counted. */
  function Ended(s: State, id: nat, ok: bool): State
    requires id < |s.attempts| && s.attempts[id].recipient < |s.recipients|
  {
    var a := s.attempts[id];
    s.(attempts := s.attempts[id := a.(status := if ok then SUCCESS else AttemptStatus.FAILED)],
       recipients := s.recipients[a.recipient := if ok then SENT else RecipientStatus.FAILED],
       sentCount := s.sentCount + (if ok then 1 else 0), failedCount := s.failedCount + if ok then 0 else 1)
  }

  function Settled(s: State, id: nat, ok: bool): State
    requires id < |s.attempts| && s.attempts[id].recipient < |s.recipients|
  {
    CheckAndComplete(Ended(s, id, ok))
  }

  predicate HasJob(s: State, id: nat) {
    id < |s.attempts| && Job(Queue(s.attempts[id].channel), id) in s.jobs
  }

  /** The send worker takes a job: whatever the attempt's state, unless it was sent already. */
  function WorkerStart(s: State, id: nat): State {
    if !HasJob(s, id) || s.attempts[id].status.SUCCESS? then s
    else s.(attempts := s.attempts[id := s.attempts[id].(status := PROCESSING)])
  }

  function WorkerFinish(s: State, id: nat, ok: bool, appIo: bool): State
    requires WellFormed(s)
  {
    if !HasJob(s, id) then s
    else
      var a := s.attempts[id];
      var t := s.(jobs := s.jobs - {Job(Queue(a.channel), id)});
      if a.status.SUCCESS? then t
      else Settled(if appIo then t.(resentWith := t.resentWith[a.recipient := t.content]) else t, id, ok)
  }

  datatype ProtocolAnswer = Numbered(number: nat) | TryLater | Refused

  /** The protocol worker: only for attempts still queued; then the attempt moves to its channel. */
  function Protocol(s: State, id: nat, answer: ProtocolAnswer): State
    requires WellFormed(s)
  {
    if Job(Protocollazione, id) !in s.jobs then s
    else
      var a := s.attempts[id];
      var t := s.(jobs := s.jobs - {Job(Protocollazione, id)});
      if !a.status.QUEUED? then t
      else match answer
        case Numbered(n) => t.(attempts := s.attempts[id := a.(protocol := Some(n))],
                               jobs := t.jobs + if a.channel == SEND then {} else {Job(Queue(a.channel), id)})
        case Refused => Settled(t, id, false)
        case TryLater => s
  }

  predicate Pollable(s: State, id: nat) {
    && id < |s.attempts| && s.attempts[id].channel == SEND && s.attempts[id].status.QUEUED?
    && s.attempts[id].protocol.Some?
  }

  /** The SEND poller. */
  function Poll(s: State, id: nat, ok: bool): State
    requires WellFormed(s)
  {
    if Pollable(s, id) then Settled(s, id, ok) else s
  }

  /** The Registro Imprese worker writes its finding whatever the recipient has become. */
  function Verify(s: State, r: nat, differs: bool): State {
    if r !in s.verifying then s
    else
      var t := s.(verifying := s.verifying - {r});
      if differs && s.channel == PEC && r < |s.recipients| then t.(recipients := s.recipients[r := PENDING_REVIEW]) else t
  }

  // ------------------------------------------------------------- runs

  datatype Event =
    | DoLaunch(route: Route)
    | DoFinalize(ready: bool, diverted: set<nat>)
    | DoSkip
    | DoTestSend(blocked: bool, toPec: bool)
    | DoCancel(locked: set<nat>)
    | DoRetry(r: nat)
    | DoCorrectAddress(r: nat, acceptable: bool)
    | DoResolveReview(r: nat)
    | DoResend(r: nat, appIoDelivered: bool)
    | DoAttach(r: nat, number: nat, idPro: string, valid: bool)
    | ContentChanged(content: string)
    | WorkerStarts(id: nat)
    | WorkerFinishes(id: nat, ok: bool, appIo: bool)
    | ProtocolAnswers(id: nat, answer: ProtocolAnswer)
    | Polled(id: nat, ok: bool)
    | Verified(r: nat, differs: bool)

  function Step(s: State, e: Event): State
    requires WellFormed(s)
  {
    match e
    case DoLaunch(route) => Launch(s, route)
    case DoFinalize(ready, diverted) => Finalize(s, ready, diverted)
    case DoSkip => SkipCheck(s)
    case DoTestSend(blocked, toPec) => TestSend(s, blocked, toPec)
    case DoCancel(locked) => Cancel(s, locked)
    case DoRetry(r) => Retry(s, r)
    case DoCorrectAddress(r, acceptable) => CorrectAddress(s, r, acceptable)
    case DoResolveReview(r) => ResolveReview(s, r)
    case DoResend(r, appIoDelivered) => Resend(s, r, appIoDelivered)
    case DoAttach(r, number, idPro, valid) => Attach(s, r, number, idPro, valid)
    case ContentChanged(content) => s.(content := content)
    case WorkerStarts(id) => WorkerStart(s, id)
    case WorkerFinishes(id, ok, appIo) => WorkerFinish(s, id, ok, appIo)
    case ProtocolAnswers(id, answer) => Protocol(s, id, answer)
    case Polled(id, ok) => Poll(s, id, ok)
    case Verified(r, differs) => Verify(s, r, differs)
  }

  /** A draft with its recipients, or a test campaign before its first send. */
  predicate Initial(s: State) {
    && s.attempts == [] && s.jobs == {} && s.verifying == {} && s.sentCount == 0 && s.failedCount == 0
    && (forall r :: 0 <= r < |s.recipients| ==> s.recipients[r] == PENDING)
    && (if s.isTest then s.status.QUEUED? && s.recipients == [] else s.status.DRAFT?)
  }
}
