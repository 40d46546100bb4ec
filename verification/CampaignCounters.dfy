/** The campaign's sent and failed counters against the statuses of its recipients. */
module CampaignCounters {
  import opened Text
  import opened Campaigns

  /** How many recipients have a status. */
  function Tally(rs: seq<RecipientStatus>, status: RecipientStatus): nat {
    multiset(rs)[status]
  }

  /** By how much the two counters are off; both are zero when they tell the truth. */
  function Drift(s: State): (int, int) {
    (s.sentCount - Tally(s.recipients, SENT), s.failedCount - Tally(s.recipients, RecipientStatus.FAILED))
  }

  lemma {:induction false} SameTally(a: seq<RecipientStatus>, b: seq<RecipientStatus>, status: RecipientStatus)
    requires |a| == |b|
    requires forall i :: 0 <= i < |a| ==> (a[i] == status <==> b[i] == status)
    ensures Tally(a, status) == Tally(b, status)
  {
    if a != [] {
      var n := |a| - 1;
      SameTally(a[..n], b[..n], status);
      assert a == a[..n] + [a[n]] && b == b[..n] + [b[n]];
    }
  }

  lemma TallySet(rs: seq<RecipientStatus>, r: nat, x: RecipientStatus, status: RecipientStatus)
    requires r < |rs|
    ensures Tally(rs[r := x], status)
      == Tally(rs, status) - (if rs[r] == status then 1 else 0) + (if x == status then 1 else 0)
  {
  }

  /** Nobody became or ceased to be sent or failed. */
  predicate SameOutcomes(s: State, t: State) {
    && |s.recipients| <= |t.recipients| && s.sentCount == t.sentCount && s.failedCount == t.failedCount
    && (forall r :: 0 <= r < |s.recipients| ==>
          (s.recipients[r].SENT? <==> t.recipients[r].SENT?) && (s.recipients[r].FAILED? <==> t.recipients[r].FAILED?))
    && (forall r :: |s.recipients| <= r < |t.recipients| ==> !t.recipients[r].SENT? && !t.recipients[r].FAILED?)
  }

  lemma SameOutcomesDrift(s: State, t: State)
    requires SameOutcomes(s, t)
    ensures Drift(s) == Drift(t)
  {
    var n := |s.recipients|;
    SameTally(s.recipients, t.recipients[..n], SENT);
    SameTally(s.recipients, t.recipients[..n], RecipientStatus.FAILED);
    assert t.recipients == t.recipients[..n] + t.recipients[n..];
    NoTally(t.recipients[n..], SENT);
    NoTally(t.recipients[n..], RecipientStatus.FAILED);
  }

  lemma NoTally(rs: seq<RecipientStatus>, status: RecipientStatus)
    requires forall i :: 0 <= i < |rs| ==> rs[i] != status
    ensures Tally(rs, status) == 0
  {
  }

  lemma RetryDrift(s: State, r: nat)
    ensures Drift(Retry(s, r)) == Drift(s)
  {
  }

  lemma ForcedDrift(s: State, r: nat)
    requires r < |s.recipients|
    ensures Drift(Forced(s, r)) == Drift(s)
  {
  }

  lemma AttachDrift(s: State, r: nat, number: nat, idPro: string, valid: bool)
    ensures Drift(Attach(s, r, number, idPro, valid)) == Drift(s)
  {
  }

  lemma CorrectAddressDrift(s: State, r: nat, acceptable: bool)
    ensures Drift(CorrectAddress(s, r, acceptable)) == Drift(s)
  {
    if r < |s.recipients| {
      ForcedDrift(s, r);
      RetryDrift(Forced(s, r), r);
    }
  }

  lemma ResendDrift(s: State, r: nat, appIoDelivered: bool)
    ensures Drift(Resend(s, r, appIoDelivered)) == Drift(s)
  {
    if r < |s.recipients| {
      ForcedDrift(s, r);
      RetryDrift(Forced(s, r), r);
      SignatureDrift(Retry(Forced(s, r), r), s.resentWith[r := s.content]);
      SignatureDrift(s, s.resentWith[r := s.content]);
    }
  }

  lemma SignatureDrift(s: State, resentWith: map<nat, string>)
    ensures Drift(s.(resentWith := resentWith)) == Drift(s)
  {
  }

  lemma CreatedDrift(s: State, ids: seq<nat>, diverted: set<nat>)
    requires forall r :: r in ids ==> r < |s.recipients|
    ensures Drift(Created(s, ids, diverted)) == Drift(s)
  {
    SameOutcomesDrift(s, Created(s, ids, diverted));
  }

  lemma LaunchDrift(s: State, route: Route)
    ensures Drift(Launch(s, route)) == Drift(s)
  {
    var q := ToCampaign(s, CampaignStatus.QUEUED);
    if !s.status.DRAFT? || route.Blocked? {
      assert Launch(s, route) == s;
    } else if PENDING !in s.recipients {
      assert Launch(s, route) == q;
    } else {
      LaunchedDrift(q, route);
      assert Launch(s, route) == Launched(q, route);
    }
  }

  lemma LaunchedDrift(q: State, route: Route)
    requires !route.Blocked?
    ensures Drift(Launched(q, route)) == Drift(q)
  {
    if q.channel == SEND || route.Direct? {
      PendingDrift(q, {});
    } else if route.Synced? {
      HeldDrift(q, route.review);
      PendingDrift(Held(q, route.review), route.diverted);
    } else {
      HeldDrift(q, route.review);
    }
  }

  lemma PendingDrift(s: State, diverted: set<nat>)
    ensures Drift(CreatedForPending(s, diverted)) == Drift(s)
  {
    SameOutcomesDrift(s, CreatedForPending(s, diverted));
  }

  lemma HeldDrift(s: State, review: set<nat>)
    ensures Drift(Held(s, review)) == Drift(s)
  {
    SameOutcomesDrift(s, Held(s, review));
  }

  lemma ResolveReviewDrift(s: State, r: nat)
    ensures Drift(ResolveReview(s, r)) == Drift(s)
  {
    if r < |s.recipients| && s.recipients[r].PENDING_REVIEW? {
      var p := s.(recipients := s.recipients[r := PENDING]);
      SameOutcomesDrift(s, p);
      CreatedDrift(p, [r], {});
    }
  }

  lemma TestSendDrift(s: State, blocked: bool, diverted: bool)
    ensures Drift(TestSend(s, blocked, diverted)) == Drift(s)
  {
    SameOutcomesDrift(s, TestSend(s, blocked, diverted));
  }

  lemma CheckOverDrift(s: State, ready: bool, diverted: set<nat>)
    ensures Drift(Finalize(s, ready, diverted)) == Drift(s)
    ensures Drift(SkipCheck(s)) == Drift(s)
  {
    SameOutcomesDrift(s, Finalize(s, ready, diverted));
    SameOutcomesDrift(s, SkipCheck(s));
  }

  lemma CancelDrift(s: State, locked: set<nat>)
    ensures Drift(Cancel(s, locked)) == Drift(s)
  {
    SameOutcomesDrift(s, Cancel(s, locked));
  }

  predicate ByService(e: Event) {
    !e.WorkerFinishes? && !e.ProtocolAnswers? && !e.Polled? && !e.Verified?
  }

  /** No service operation, carried out or refused, from any state, makes the counters more or less wrong. */
  lemma ServiceKeepsDrift(s: State, e: Event)
    requires WellFormed(s) && ByService(e)
    ensures Drift(Step(s, e)) == Drift(s)
  {
    match e
    case DoRetry(r) => RetryDrift(s, r);
    case DoCorrectAddress(r, acceptable) => CorrectAddressDrift(s, r, acceptable);
    case DoResend(r, appIoDelivered) => ResendDrift(s, r, appIoDelivered);
    case DoAttach(r, number, idPro, valid) => AttachDrift(s, r, number, idPro, valid);
    case DoLaunch(route) => LaunchDrift(s, route);
    case DoFinalize(ready, diverted) => CheckOverDrift(s, ready, diverted);
    case DoSkip => CheckOverDrift(s, false, {});
    case DoTestSend(blocked, toPec) => TestSendDrift(s, blocked, toPec);
    case DoCancel(locked) => CancelDrift(s, locked);
    case DoResolveReview(r) => ResolveReviewDrift(s, r);
    case ContentChanged(content) => SameOutcomesDrift(s, s.(content := content));
    case _ =>
  }

  /** A worker that ends a sending counts it right exactly when the recipient was not sent or failed
      already: otherwise the earlier outcome stays counted. */
  lemma EndedDrift(s: State, id: nat, ok: bool)
    requires id < |s.attempts| && s.attempts[id].recipient < |s.recipients|
    ensures Drift(Settled(s, id, ok)) == Drift(s)
      <==> !s.recipients[s.attempts[id].recipient].SENT? && !s.recipients[s.attempts[id].recipient].FAILED?
  {
    var r, x := s.attempts[id].recipient, if ok then SENT else RecipientStatus.FAILED;
    TallySet(s.recipients, r, x, SENT);
    TallySet(s.recipients, r, x, RecipientStatus.FAILED);
    assert Settled(s, id, ok).recipients == s.recipients[r := x];
    assert Settled(s, id, ok).sentCount == Ended(s, id, ok).sentCount;
  }

  /** The Registro Imprese worker spoils the counters exactly when it holds back somebody already sent or failed. */
  lemma VerifyDrift(s: State, r: nat, differs: bool)
    requires WellFormed(s)
    ensures Drift(Verify(s, r, differs)) == Drift(s)
      <==> !(r in s.verifying && differs && s.channel == PEC && (s.recipients[r].SENT? || s.recipients[r].FAILED?))
  {
  }

  // ------------------------------------------------------------- bulk retry

  /** retryRecipient for every id in turn; refusals are collected. */
  function RetryAll(s: State, ids: seq<nat>): State {
    if ids == [] then s else Retry(RetryAll(s, ids[..|ids| - 1]), ids[|ids| - 1])
  }

  /** The ids refused, in order. */
  function RefusedIds(s: State, ids: seq<nat>): seq<nat> {
    if ids == [] then []
    else
      var before, r := ids[..|ids| - 1], ids[|ids| - 1];
      RefusedIds(s, before) + if Retriable(RetryAll(s, before), r) then [] else [r]
  }

  function AfterRetries(s: State, ids: seq<nat>, r: nat): RecipientStatus
    requires r < |s.recipients|
  {
    if r in ids && Retriable(s, r) then RecipientStatus.QUEUED else s.recipients[r]
  }

  lemma RetryMoves(s: State, r: nat)
    ensures Retry(s, r).recipients == if Retriable(s, r) then s.recipients[r := RecipientStatus.QUEUED] else s.recipients
    ensures Retry(s, r).status.CANCELLED? == s.status.CANCELLED?
    ensures |Retry(s, r).attempts| == |s.attempts| + if Retriable(s, r) then 1 else 0
  {
  }

  lemma {:induction false} RetryAllIs(s: State, ids: seq<nat>)
    ensures Drift(RetryAll(s, ids)) == Drift(s)
    ensures |RetryAll(s, ids).recipients| == |s.recipients|
    ensures RetryAll(s, ids).status.CANCELLED? == s.status.CANCELLED?
    ensures forall r :: 0 <= r < |s.recipients| ==> RetryAll(s, ids).recipients[r] == AfterRetries(s, ids, r)
  {
    if ids != [] {
      var before, r := ids[..|ids| - 1], ids[|ids| - 1];
      RetryAllIs(s, before);
      RetryMoves(RetryAll(s, before), r);
      RetryDrift(RetryAll(s, before), r);
      assert ids == before + [r];
    }
  }

  /** Every id is either put back in the queue, exactly once, or refused; an id repeated in the request
      is refused from its second time on. */
  lemma {:induction false} RefusedAre(s: State, ids: seq<nat>)
    ensures |RetryAll(s, ids).attempts| == |s.attempts| + |ids| - |RefusedIds(s, ids)|
    ensures forall r :: r in RefusedIds(s, ids) <==> r in ids && (!Retriable(s, r) || multiset(ids)[r] > 1)
  {
    if ids != [] {
      var before, r := ids[..|ids| - 1], ids[|ids| - 1];
      RefusedAre(s, before);
      RetryAllIs(s, before);
      RetryMoves(RetryAll(s, before), r);
      assert Retriable(RetryAll(s, before), r) <==> Retriable(s, r) && r !in before;
      forall x ensures x in RefusedIds(s, ids) <==> x in ids && (!Retriable(s, x) || multiset(ids)[x] > 1) {
        assert x in RefusedIds(s, ids) <==> x in RefusedIds(s, before) || (x == r && !Retriable(RetryAll(s, before), r));
        CountedOnceMore(ids, x);
      }
    }
  }

  lemma CountedOnceMore(ids: seq<nat>, x: nat)
    requires ids != []
    ensures var before, r := ids[..|ids| - 1], ids[|ids| - 1];
      && multiset(ids)[x] == multiset(before)[x] + (if x == r then 1 else 0)
      && (x in ids <==> x in before || x == r) && (x in before <==> multiset(before)[x] > 0)
  {
    assert ids == ids[..|ids| - 1] + [ids[|ids| - 1]];
  }
}
