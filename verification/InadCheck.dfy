/** The check of digital domiciles before a launch: the synchronous loop of small campaigns and the
    batched path of large ones, with the INAD quota, the company worker and the cron that resumes. */
module InadCheck {
  import opened Text
  import opened Campaigns

  const CONCURRENCY: nat := 5
  const BATCH: nat := 1000

  datatype Company = LookupFailed | NotRegistered | Registered(pec: string)

  /** An answer of INAD about one tax code; addresses in the order INAD gives them. */
  datatype Item = Item(cf: string, addresses: seq<string>)

  /** The outside sources, each answering the same whenever it is asked: INAD for one tax code (empty
      when it answers 404) and for a list, Registro Imprese, and Unicode lower case. */
  datatype World = World(
    inad: string -> seq<string>, bulk: seq<string> -> seq<Item>, registro: string -> Company, lower: string -> string)

  datatype Audit = Audit(found: bool, diverted: bool, originalAddress: string, foundAddress: Option<string>)

  /** A recipient; an empty text is a NULL column. `held` is PENDING_REVIEW. */
  datatype Row = Row(cf: string, pec: string, email: string, audit: Option<Audit>, held: bool)

  datatype Batch = Batch(id: Option<string>, recipientIds: seq<nat>, done: bool)

  /** The bulk answer tells what the single one would, in any order, and may leave out who has nothing. */
  ghost predicate Answers(w: World, cfs: seq<string>) {
    && (forall it :: it in w.bulk(cfs) ==> it.addresses == w.inad(it.cf))
    && (forall cf :: cf in cfs && w.inad(cf) != [] ==> exists it :: it in w.bulk(cfs) && it.cf == cf)
  }

  ghost predicate Consistent(w: World) {
    forall cfs :: Answers(w, cfs)
  }

  predicate IsPartitaIva(cf: string) {
    |Trim(cf)| == 11 && forall c :: c in Trim(cf) ==> '0' <= c <= '9'
  }

  predicate SamePecAddress(w: World, a: string, b: string) {
    w.lower(Trim(a)) != "" && w.lower(Trim(a)) == w.lower(Trim(b))
  }

  function OriginalAddress(channel: Channel, row: Row): string {
    if channel == PEC then row.pec else row.email
  }

  // ------------------------------------------------------------- one recipient

  /** Registro Imprese: found does not mean that there is a PEC; a PEC campaign waits for the operator. */
  function CompanyCheck(w: World, channel: Channel, row: Row, blockPecReview: bool): Row {
    match w.registro(row.cf)
    case LookupFailed => row
    case NotRegistered => row.(audit := Some(Audit(false, false, OriginalAddress(channel, row), None)))
    case Registered(pec) =>
      var diverted := pec != "" && !SamePecAddress(w, pec, row.pec);
      if blockPecReview && diverted && channel == PEC then
        row.(audit := Some(Audit(true, true, row.pec, Some(pec))), held := true)
      else row.(audit := Some(Audit(true, diverted, OriginalAddress(channel, row), None)),
                pec := if diverted then pec else row.pec)
  }

  /** INAD asked for one person: `resolveInadDigitalAddress(...)` is null where the first address is empty. */
  function PersonSync(w: World, channel: Channel, row: Row): Row {
    var addresses := w.inad(row.cf);
    var found := addresses != [] && addresses[0] != "";
    var diverted := found && !SamePecAddress(w, addresses[0], row.pec);
    row.(audit := Some(Audit(found, diverted, OriginalAddress(channel, row), None)),
         pec := if diverted then addresses[0] else row.pec)
  }

  /** INAD's batch answer: found is that the list is not empty. */
  function PersonBulk(w: World, channel: Channel, row: Row): Row {
    var addresses := w.inad(row.cf);
    var found := addresses != [];
    var diverted := found && !SamePecAddress(w, addresses[0], row.pec);
    row.(audit := Some(Audit(found, diverted, OriginalAddress(channel, row), None)),
         pec := if diverted then addresses[0] else row.pec)
  }

  function SyncCheck(w: World, channel: Channel, row: Row, blockPecReview: bool): Row {
    if row.cf == "" then row
    else if IsPartitaIva(row.cf) then CompanyCheck(w, channel, row, blockPecReview)
    else PersonSync(w, channel, row)
  }

  function BulkCheck(w: World, channel: Channel, row: Row): Row {
    if row.cf == "" then row
    else if IsPartitaIva(row.cf) then CompanyCheck(w, channel, row, true)
    else PersonBulk(w, channel, row)
  }

  predicate Diverted(row: Row) {
    row.audit.Some? && row.audit.value.diverted && !row.held
  }

  /** The channel of the recipient's attempt. */
  function EffectiveChannel(channel: Channel, row: Row): Channel {
    if Diverted(row) then PEC else channel
  }

  /** Some source answers with an empty first address. */
  predicate EmptyFirstAddress(w: World, row: Row) {
    row.cf != "" && !IsPartitaIva(row.cf) && w.inad(row.cf) != [] && w.inad(row.cf)[0] == ""
  }

  /** The two paths leave a recipient with the same address, audit and review, and the same channel,
      exactly unless INAD's first address is empty: there the batched path alone takes the recipient
      for diverted and empties its PEC. */
  lemma PathsAgree(w: World, channel: Channel, row: Row)
    requires row.audit.None? && !row.held && w.lower("") == ""
    ensures SyncCheck(w, channel, row, true) == BulkCheck(w, channel, row) <==> !EmptyFirstAddress(w, row)
    ensures !EmptyFirstAddress(w, row) ==>
      EffectiveChannel(channel, SyncCheck(w, channel, row, true)) == EffectiveChannel(channel, BulkCheck(w, channel, row))
    ensures EmptyFirstAddress(w, row) ==>
      Diverted(BulkCheck(w, channel, row)) && BulkCheck(w, channel, row).pec == "" && !Diverted(SyncCheck(w, channel, row, true))
  {
  }

  /** Applying a batch again, as happens when the answer of a later batch fails to arrive, leaves the address and
      takes the diversion back, exactly when it was to an address that is not blank: the recipient is then sent
      to on the campaign's own channel. */
  lemma AppliedTwice(w: World, channel: Channel, row: Row)
    ensures var once := PersonBulk(w, channel, row); var twice := PersonBulk(w, channel, once);
      && twice.pec == once.pec
      && (Diverted(twice) <==> Diverted(once) && w.lower(Trim(once.pec)) == "")
      && (EffectiveChannel(channel, twice) == EffectiveChannel(channel, once)
          <==> channel == PEC || !Diverted(once) || w.lower(Trim(once.pec)) == "")
  {
  }

  /** A recipient is diverted only to a certified address that is not the one it had. */
  lemma DivertedGetsNewAddress(w: World, channel: Channel, row: Row)
    requires row.audit.None? && !row.held && w.lower("") == ""
    ensures var r := SyncCheck(w, channel, row, true);
      Diverted(r) ==> r.pec != "" && !SamePecAddress(w, r.pec, row.pec)
    ensures var r := SyncCheck(w, channel, row, true); !Diverted(r) ==> r.pec == row.pec
    ensures var r := SyncCheck(w, channel, row, true);
      r.held ==> channel == PEC && IsPartitaIva(row.cf) && r.audit.Some? && r.audit.value.foundAddress.Some?
  {
  }

  // ------------------------------------------------------------- what counts as the same address, and as a company

  /** Spaces around an address and its case do not make another one; a blank address is the same as none. */
  lemma AddressesCompared(w: World, a: string, b: string, c: char)
    requires IsSpace(c)
    ensures SamePecAddress(w, a, b) == SamePecAddress(w, a + [c], b) == SamePecAddress(w, [c] + a, b)
    ensures SamePecAddress(w, a, b) == SamePecAddress(w, b, a)
    ensures w.lower(Trim(a)) != "" && w.lower(Trim(b)) == w.lower(Trim(a)) ==> SamePecAddress(w, a, b)
    ensures SamePecAddress(w, a, b) ==> w.lower(Trim(a)) == w.lower(Trim(b))
    ensures w.lower("") == "" && Trim(a) == "" ==> !SamePecAddress(w, a, b)
  {
    TrimSpaceAfter(a, c);
    TrimSpaceBefore(a, c);
  }

  /** Eleven digits are a company, whatever spaces stand around them; nothing else is. */
  lemma CompanyNumbers(cf: string, c: char)
    requires IsSpace(c)
    ensures IsPartitaIva(cf) == IsPartitaIva(cf + [c]) == IsPartitaIva([c] + cf)
    ensures Trim(cf) == cf ==> (IsPartitaIva(cf) <==> |cf| == 11 && forall d :: d in cf ==> d in "0123456789")
  {
    TrimSpaceAfter(cf, c);
    TrimSpaceBefore(cf, c);
    assert forall d: char :: d in "0123456789" <==> '0' <= d <= '9';
  }

  /** The address that the sources know for a recipient. */
  function KnownAddress(w: World, row: Row): string {
    if row.cf == "" then ""
    else if IsPartitaIva(row.cf) then (if w.registro(row.cf).Registered? then w.registro(row.cf).pec else "")
    else if w.inad(row.cf) == [] then ""
    else w.inad(row.cf)[0]
  }

  /** A recipient is sent elsewhere, or held for review where the campaign is a PEC one, exactly when the sources
      know an address other than its own; the audit keeps the address that it had. */
  lemma DivertedWhen(w: World, channel: Channel, row: Row)
    requires row.audit.None? && !row.held
    ensures var r, known := SyncCheck(w, channel, row, true), KnownAddress(w, row);
      && (Diverted(r) || r.held <==> known != "" && !SamePecAddress(w, known, row.pec))
      && (Diverted(r) ==> r.pec == known) && (r.held ==> r.audit.value.foundAddress == Some(known) && r.pec == row.pec)
      && (r.held <==> channel == PEC && IsPartitaIva(row.cf) && row.cf != "" && known != "" && !SamePecAddress(w, known, row.pec))
      && (r.audit.Some? ==> r.audit.value.originalAddress == if channel == PEC then row.pec else row.email)
      && (r.audit.None? <==> row.cf == "" || (IsPartitaIva(row.cf) && w.registro(row.cf).LookupFailed?))
  {
  }

  // ------------------------------------------------------------- partition

  function PeopleOf(rows: seq<Row>, ids: seq<nat>): (r: seq<nat>)
    requires InRange(rows, ids)
    ensures forall i :: i in r <==> i in ids && rows[i].cf != "" && !IsPartitaIva(rows[i].cf)
    ensures Distinct(ids) ==> Distinct(r)
  {
    if ids == [] then []
    else
      var i := ids[|ids| - 1];
      assert ids == ids[..|ids| - 1] + [i] && i in ids;
      var before := PeopleOf(rows, ids[..|ids| - 1]);
      assert forall k :: 0 <= k < |before| ==> before[k] in ids[..|ids| - 1];
      if rows[i].cf != "" && !IsPartitaIva(rows[i].cf) then before + [i] else before
  }

  function CompaniesOf(rows: seq<Row>, ids: seq<nat>): (r: seq<nat>)
    requires InRange(rows, ids)
    ensures forall i :: i in r <==> i in ids && rows[i].cf != "" && IsPartitaIva(rows[i].cf)
    ensures Distinct(ids) ==> Distinct(r)
  {
    if ids == [] then []
    else
      var i := ids[|ids| - 1];
      assert ids == ids[..|ids| - 1] + [i] && i in ids;
      var before := CompaniesOf(rows, ids[..|ids| - 1]);
      assert forall k :: 0 <= k < |before| ==> before[k] in ids[..|ids| - 1];
      if rows[i].cf != "" && IsPartitaIva(rows[i].cf) then before + [i] else before
  }

  predicate InRange(rows: seq<Row>, ids: seq<nat>) {
    forall k :: 0 <= k < |ids| ==> ids[k] < |rows|
  }

  predicate Distinct(ids: seq<nat>) {
    forall i, j :: 0 <= i < j < |ids| ==> ids[i] != ids[j]
  }

  function Members(batches: seq<Batch>): seq<nat> {
    if batches == [] then [] else Members(batches[..|batches| - 1]) + batches[|batches| - 1].recipientIds
  }

  lemma {:induction false} MemberOf(batches: seq<Batch>, r: nat)
    ensures r in Members(batches) <==> exists b :: 0 <= b < |batches| && r in batches[b].recipientIds
  {
    if batches != [] {
      var n := |batches| - 1;
      MemberOf(batches[..n], r);
      assert forall b :: 0 <= b < n ==> batches[..n][b] == batches[b];
    }
  }

  /** In a partition without repetitions a recipient is in one batch only. */
  lemma {:induction false} OneBatch(batches: seq<Batch>, a: nat, b: nat, r: nat)
    requires Distinct(Members(batches)) && a < b < |batches| && r in batches[a].recipientIds
    ensures r !in batches[b].recipientIds
  {
    var n := |batches| - 1;
    var all, before := Members(batches), Members(batches[..n]);
    assert forall i :: 0 <= i < |before| ==> all[i] == before[i];
    if b < n {
      OneBatch(batches[..n], a, b, r);
    } else {
      assert batches[..n][a] == batches[a];
      MemberOf(batches[..n], r);
      var i :| 0 <= i < |before| && before[i] == r;
      forall j | 0 <= j < |batches[n].recipientIds| ensures batches[n].recipientIds[j] != r {
        assert all[|before| + j] == batches[n].recipientIds[j] && all[i] == r;
      }
    }
  }

  // ------------------------------------------------------------- the service

  /** Ready to finalize: every pending batch was submitted and is available, every company done. */
  predicate Ready(batches: seq<Batch>, available: set<string>, companies: seq<nat>, unanswered: set<nat>) {
    && (forall b :: 0 <= b < |batches| && !batches[b].done ==> batches[b].id.Some? && batches[b].id.value in available)
    && (forall c :: c in companies ==> c !in unanswered)
  }

  /** A batch without id, not done, gets the id its submission returns, if any; nothing else changes. */
  predicate Submitted(before: seq<Batch>, after: seq<Batch>, submit: nat -> Option<string>) {
    |after| == |before| && forall b :: 0 <= b < |before| ==>
      after[b] == if before[b].done || before[b].id.Some? then before[b] else before[b].(id := submit(b))
  }

  /** Rows checked for a list of recipients; the others are as before. */
  predicate Checked(before: seq<Row>, after: seq<Row>, ids: seq<nat>, check: Row -> Row) {
    |after| == |before| && forall r :: 0 <= r < |before| ==> after[r] == if r in ids then check(before[r]) else before[r]
  }

  /** The first `full` batches hold exactly 1000 recipients, the others at least one and at most 1000. */
  predicate SizesFit(batches: seq<Batch>, full: int) {
    forall b :: 0 <= b < |batches| ==>
      1 <= |batches[b].recipientIds| <= 1000 && (b < full ==> |batches[b].recipientIds| == 1000)
  }

  /** A batch has the id its submission returned, unless it or one before it met the end of the quota. */
  predicate SubmittedUntilQuota(batches: seq<Batch>, submit: nat -> Option<string>) {
    forall b :: 0 <= b < |batches| ==> batches[b].id == if AllAccepted(submit, b) then submit(b) else None
  }

  lemma SubmittedNext(batches: seq<Batch>, batch: Batch, submit: nat -> Option<string>)
    requires SubmittedUntilQuota(batches, submit)
    requires batch.id == if exists a: nat :: a < |batches| && submit(a).None? then None else submit(|batches|)
    ensures SubmittedUntilQuota(batches + [batch], submit)
  {
    var n, after := |batches|, batches + [batch];
    if a: nat :| a < n && submit(a).None? {
      assert !AllAccepted(submit, n);
    } else if submit(n).Some? {
      assert AllAccepted(submit, n);
    }
    assert after[n] == batch;
    assert forall b :: 0 <= b < n ==> after[b] == batches[b];
  }

  predicate AllAccepted(submit: nat -> Option<string>, last: nat) {
    forall a: nat :: a <= last ==> submit(a).Some?
  }

  predicate AllDone(before: seq<Batch>, after: seq<Batch>) {
    |after| == |before| && forall b :: 0 <= b < |after| ==> after[b] == before[b].(done := true)
  }

  predicate NoneDone(batches: seq<Batch>) {
    forall b :: 0 <= b < |batches| ==> !batches[b].done
  }

  /** The loop has dealt with the first k recipients. */
  ghost predicate LoopedUpTo(before: seq<Row>, rows: seq<Row>, ids: seq<nat>, k: nat, toPec: set<nat>, review: set<nat>, check: Row -> Row)
    requires k <= |ids| && InRange(before, ids)
  {
    && |rows| == |before|
    && (forall r :: 0 <= r < |rows| ==> rows[r] == if r in ids[..k] then check(before[r]) else before[r])
    && (forall r: nat :: r in toPec <==> r in ids[..k] && Diverted(check(before[r])))
    && (forall r: nat :: r in review <==> r in ids[..k] && check(before[r]).held)
  }

  lemma LoopOneMore(before: seq<Row>, rows: seq<Row>, ids: seq<nat>, k: nat, toPec: set<nat>, review: set<nat>, check: Row -> Row)
    requires InRange(before, ids) && Distinct(ids) && k < |ids| && LoopedUpTo(before, rows, ids, k, toPec, review, check)
    ensures rows[ids[k]] == before[ids[k]]
    ensures var r := check(before[ids[k]]);
      LoopedUpTo(before, rows[ids[k] := r], ids, k + 1, if Diverted(r) then toPec + {ids[k]} else toPec,
        if r.held then review + {ids[k]} else review, check)
  {
  }

  /** None of the first n items after it is about the same tax code. */
  predicate IsLatest(items: seq<Item>, k: nat, n: nat)
    requires k < n <= |items|
  {
    forall j :: k < j < n ==> items[j].cf != items[k].cf
  }

  /** The map holds, for every tax code among the first n items, the latest of its items, and nothing else. */
  predicate Indexed(items: seq<Item>, n: nat, byCf: map<string, Item>)
    requires n <= |items|
  {
    && (forall k :: 0 <= k < n ==> items[k].cf in byCf)
    && (forall cf :: cf in byCf ==> IsLatestOf(items, n, cf, byCf[cf]))
  }

  predicate IsLatestOf(items: seq<Item>, n: nat, cf: string, it: Item)
    requires n <= |items|
  {
    it.cf == cf && exists k :: 0 <= k < n && items[k] == it && IsLatest(items, k, n)
  }

  lemma OneItemMore(items: seq<Item>, i: nat, byCf: map<string, Item>)
    requires i < |items| && Indexed(items, i, byCf)
    ensures Indexed(items, i + 1, byCf[items[i].cf := items[i]])
  {
    var after := byCf[items[i].cf := items[i]];
    assert IsLatest(items, i, i + 1);
    forall cf | cf in after ensures IsLatestOf(items, i + 1, cf, after[cf]) {
      if cf != items[i].cf {
        var k :| 0 <= k < i && items[k] == byCf[cf] && IsLatest(items, k, i);
        assert IsLatest(items, k, i + 1);
      }
    }
  }

  /** What the batch answers about one of its tax codes is what INAD would answer alone. */
  lemma AddressesFound(w: World, cfs: seq<string>, byCf: map<string, Item>, k: nat)
    requires Consistent(w) && k < |cfs| && Indexed(w.bulk(cfs), |w.bulk(cfs)|, byCf)
    ensures (if cfs[k] in byCf then byCf[cfs[k]].addresses else []) == w.inad(cfs[k])
  {
    assert Answers(w, cfs) && cfs[k] in cfs;
    if cfs[k] in byCf {
      assert IsLatestOf(w.bulk(cfs), |w.bulk(cfs)|, cfs[k], byCf[cfs[k]]);
    }
  }

  function AtTick(submit: (nat, nat) -> Option<string>, t: nat): nat -> Option<string> {
    (b: nat) => submit(t, b)
  }

  /** Up to tick t: a batch accepted after the launch has an id, and an id is what some tick returned. */
  predicate SubmittedBy(batches: seq<Batch>, submit: (nat, nat) -> Option<string>, t: nat) {
    && (forall b: nat, u: nat :: b < |batches| && 1 <= u <= t && submit(u, b).Some? ==> batches[b].id.Some?)
    && (forall b: nat :: b < |batches| && batches[b].id.Some? ==> exists u: nat :: u <= t && submit(u, b) == batches[b].id)
  }

  lemma LaunchSubmits(batches: seq<Batch>, submit: (nat, nat) -> Option<string>)
    requires SubmittedUntilQuota(batches, AtTick(submit, 0))
    ensures SubmittedBy(batches, submit, 0)
  {
    forall b: nat | b < |batches| && batches[b].id.Some? ensures submit(0, b) == batches[b].id {
      assert AtTick(submit, 0)(b) == submit(0, b);
    }
  }

  lemma TickSubmits(was: seq<Batch>, now: seq<Batch>, submit: (nat, nat) -> Option<string>, t: nat)
    requires NoneDone(was) && SubmittedBy(was, submit, t) && Submitted(was, now, AtTick(submit, t + 1))
    ensures NoneDone(now) && SubmittedBy(now, submit, t + 1)
  {
    forall b: nat | b < |now| && now[b].id.Some? ensures exists u: nat :: u <= t + 1 && submit(u, b) == now[b].id {
      if was[b].id.Some? {
        var u: nat :| u <= t && submit(u, b) == was[b].id;
      } else {
        assert submit(t + 1, b) == now[b].id;
      }
    }
  }

  class InadChecker {
    const world: World
    const channel: Channel
    var rows: seq<Row>
    var batches: seq<Batch>
    var companies: seq<nat>
    /** Companies whose verification job is not finished. */
    var unanswered: set<nat>

    constructor (world: World, channel: Channel, rows: seq<Row>)
      ensures this.world == world && this.channel == channel && this.rows == rows
      ensures batches == [] && companies == [] && unanswered == {}
    {
      this.world, this.channel, this.rows := world, channel, rows;
      batches, companies, unanswered := [], [], {};
    }

    /** One recipient of the synchronous loop. */
    method CheckOne(r: nat, blockPecReview: bool)
      requires r < |rows|
      modifies this`rows
      ensures rows == old(rows)[r := SyncCheck(world, channel, old(rows[r]), blockPecReview)]
    {
      if rows[r].cf == "" { return; }
      if IsPartitaIva(rows[r].cf) {
        rows := rows[r := CompanyCheck(world, channel, rows[r], blockPecReview)];
        return;
      }
      var addresses := world.inad(rows[r].cf);
      var digitalAddress := if addresses != [] then addresses[0] else "";
      var found := digitalAddress != "";
      var diverted := found && !SamePecAddress(world, digitalAddress, rows[r].pec);
      var audit := Audit(found, diverted, OriginalAddress(channel, rows[r]), None);
      rows := rows[r := rows[r].(audit := Some(audit), pec := if diverted then digitalAddress else rows[r].pec)];
    }

    /** runInadExtractLoop, five at a time, with every source answering. */
    method RunInadExtractLoop(ids: seq<nat>, blockPecReview: bool) returns (toPec: set<nat>, review: set<nat>)
      requires InRange(rows, ids) && Distinct(ids)
      requires forall r :: r in ids ==> rows[r].audit.None? && !rows[r].held
      modifies this`rows
      ensures Checked(old(rows), rows, ids, row => SyncCheck(world, channel, row, blockPecReview))
      ensures forall r: nat :: r in toPec <==> r in ids && Diverted(rows[r])
      ensures forall r: nat :: r in review <==> r in ids && rows[r].held
    {
      ghost var before := rows;
      toPec, review := {}, {};
      var i := 0;
      while i < |ids|
        invariant 0 <= i <= |ids|
        invariant LoopedUpTo(before, rows, ids, i, toPec, review, row => SyncCheck(world, channel, row, blockPecReview))
      {
        var next := if i + CONCURRENCY < |ids| then i + CONCURRENCY else |ids|;
        for k := i to next
          invariant LoopedUpTo(before, rows, ids, k, toPec, review, row => SyncCheck(world, channel, row, blockPecReview))
        {
          LoopOneMore(before, rows, ids, k, toPec, review, row => SyncCheck(world, channel, row, blockPecReview));
          CheckOne(ids[k], blockPecReview);
          if rows[ids[k]].held {
            review := review + {ids[k]};
          } else if Diverted(rows[ids[k]]) {
            toPec := toPec + {ids[k]};
          }
        }
        i := next;
      }
      assert ids[..i] == ids;
    }

    /** One batch more, with its id or, once the quota has ended, without. */
    method PushBatch(people: seq<nat>, i: nat, next: nat, id: Option<string>)
      requires i < next <= |people| && Members(batches) == people[..i]
      modifies this`batches
      ensures batches == old(batches) + [Batch(id, people[i..next], false)]
      ensures Members(batches) == people[..next]
    {
      var batch := Batch(id, people[i..next], false);
      assert (batches + [batch])[..|batches|] == batches;
      batches := batches + [batch];
    }

    method SubmitBatches(people: seq<nat>, submit: nat -> Option<string>)
      modifies this`batches
      ensures Members(batches) == people
      ensures SizesFit(batches, |batches| - 1) && SubmittedUntilQuota(batches, submit) && NoneDone(batches)
    {
      batches := [];
      var quotaExceeded := false;
      var i := 0;
      while i < |people|
        invariant 0 <= i <= |people| && Members(batches) == people[..i]
        invariant NoneDone(batches) && SubmittedUntilQuota(batches, submit)
        invariant SizesFit(batches, if i < |people| then |batches| else |batches| - 1)
        invariant quotaExceeded <==> exists a: nat :: a < |batches| && submit(a).None?
      {
        var next := if i + BATCH < |people| then i + BATCH else |people|;
        var id := if quotaExceeded then None else submit(|batches|);
        if id.None? {
          quotaExceeded := true;
        }
        SubmittedNext(batches, Batch(id, people[i..next], false), submit);
        PushBatch(people, i, next, id);
        i := next;
      }
      assert people[..i] == people;
    }

    /** startInadBulkCheck up to the campaign's own fields: batches of at most 1000 people, submitted
        until the quota ends, and one verification job for each company. */
    method StartInadBulkCheck(ids: seq<nat>, submit: nat -> Option<string>) returns (checking: bool)
      requires InRange(rows, ids)
      modifies this`batches, this`companies, this`unanswered
      ensures companies == CompaniesOf(rows, ids) && Members(batches) == PeopleOf(rows, ids)
      ensures SizesFit(batches, |batches| - 1) && SubmittedUntilQuota(batches, submit) && NoneDone(batches)
      ensures unanswered == set c | c in companies
      ensures checking <==> SomebodyListed(rows, ids)
      ensures !checking ==> batches == []
    {
      companies := CompaniesOf(rows, ids);
      SubmitBatches(PeopleOf(rows, ids), submit);
      unanswered := set c | c in companies;
      checking := batches != [] || companies != [];
      SomeoneToCheck(rows, ids, batches);
    }

    /** The Registro Imprese worker on one verification job: the recipient ends as the synchronous loop would leave
        it. A PEC campaign never takes the address found, it waits for the operator; another is diverted to it. */
    method VerifyCompany(r: nat)
      requires r in unanswered && r < |rows|
      modifies this`rows, this`unanswered
      ensures rows == old(rows)[r := CompanyCheck(world, channel, old(rows[r]), true)]
      ensures old(rows[r]).cf != "" && IsPartitaIva(old(rows[r]).cf) ==> rows[r] == SyncCheck(world, channel, old(rows[r]), true)
      ensures rows[r].pec != old(rows[r]).pec ==> channel != PEC && !SamePecAddress(world, rows[r].pec, old(rows[r]).pec)
      ensures rows[r].held && !old(rows[r]).held ==> channel == PEC && rows[r].pec == old(rows[r]).pec
      ensures unanswered == old(unanswered) - {r}
    {
      rows := rows[r := CompanyCheck(world, channel, rows[r], true)];
      unanswered := unanswered - {r};
    }

    /** Batches that could not be submitted are submitted again. */
    method Resubmit(submit: nat -> Option<string>)
      modifies this`batches
      ensures Submitted(old(batches), batches, submit)
    {
      ghost var before := batches;
      for b := 0 to |batches|
        invariant |batches| == |before| && forall k :: b <= k < |before| ==> batches[k] == before[k]
        invariant Submitted(before[..b], batches[..b], submit)
      {
        if !batches[b].done && batches[b].id.None? {
          batches := batches[b := batches[b].(id := submit(b))];
        }
      }
    }

    method IsReady(available: set<string>) returns (allReady: bool)
      ensures allReady <==> Ready(batches, available, companies, unanswered)
    {
      allReady := true;
      for b := 0 to |batches|
        invariant allReady <==> forall k :: 0 <= k < b && !batches[k].done ==> batches[k].id.Some? && batches[k].id.value in available
      {
        if !batches[b].done && (batches[b].id.None? || batches[b].id.value !in available) {
          allReady := false;
        }
      }
      for c := 0 to |companies|
        invariant allReady <==> Ready(batches, available, companies[..c], unanswered)
      {
        assert companies[..c + 1] == companies[..c] + [companies[c]];
        if companies[c] in unanswered {
          allReady := false;
        }
      }
      assert companies[..|companies|] == companies;
    }

    /** resultByCf: a later item about the same tax code replaces an earlier one. */
    method ResultByCf(items: seq<Item>) returns (byCf: map<string, Item>)
      ensures Indexed(items, |items|, byCf)
    {
      byCf := map[];
      for i := 0 to |items|
        invariant Indexed(items, i, byCf)
      {
        OneItemMore(items, i, byCf);
        byCf := byCf[items[i].cf := items[i]];
      }
    }

    /** The answer of one batch applied to its recipients. */
    method ApplyBatch(ids: seq<nat>)
      requires InRange(rows, ids) && Distinct(ids) && Consistent(world)
      requires forall r :: r in ids ==> rows[r].cf != ""
      modifies this`rows
      ensures Checked(old(rows), rows, ids, row => PersonBulk(world, channel, row))
    {
      ghost var before := rows;
      var now := rows;
      var cfs := seq(|ids|, i requires 0 <= i < |ids| => now[ids[i]].cf);
      var byCf := ResultByCf(world.bulk(cfs));
      for k := 0 to |ids|
        invariant Checked(before, rows, ids[..k], row => PersonBulk(world, channel, row))
      {
        var r := ids[k];
        assert ids[..k + 1] == ids[..k] + [r] && r !in ids[..k] && cfs[k] == before[r].cf;
        AddressesFound(world, cfs, byCf, k);
        var addresses := if rows[r].cf in byCf then byCf[rows[r].cf].addresses else [];
        var found := addresses != [];
        var diverted := found && !SamePecAddress(world, addresses[0], rows[r].pec);
        var audit := Audit(found, diverted, OriginalAddress(channel, rows[r]), None);
        rows := rows[r := rows[r].(audit := Some(audit), pec := if diverted then addresses[0] else rows[r].pec)];
      }
      assert ids[..|ids|] == ids;
    }

    /** finalizeInadCheck: nothing at all unless everything is ready; then every pending batch. `arrives` says
        whether the answer of a batch can be fetched: when one cannot, the batches before it have been applied
        and none is saved as done. */
    method FinalizeInadCheck(available: set<string>, arrives: nat -> bool) returns (finalized: bool, ghost applied: nat)
      requires InRange(rows, Members(batches)) && Distinct(Members(batches)) && Consistent(world)
      requires forall r :: r in Members(batches) ==> rows[r].cf != ""
      requires NoneDone(batches)
      modifies this`rows, this`batches
      ensures applied <= |old(batches)| && forall b: nat :: b < applied ==> arrives(b)
      ensures Checked(old(rows), rows, Members(old(batches)[..applied]), row => PersonBulk(world, channel, row))
      ensures finalized == (Ready(old(batches), available, companies, unanswered) && applied == |old(batches)|)
      ensures !finalized ==> batches == old(batches)
      ensures !finalized ==> applied == 0 || (applied < |batches| && !arrives(applied))
      ensures !finalized && Ready(batches, available, companies, unanswered) ==> applied < |batches| && !arrives(applied)
      ensures finalized ==> Checked(old(rows), rows, Members(old(batches)), row => PersonBulk(world, channel, row))
      ensures finalized ==> AllDone(old(batches), batches)
    {
      finalized := IsReady(available);
      applied := 0;
      if !finalized { return; }
      var pending, n := ApplyPending(arrives);
      applied := n;
      finalized := n == |batches|;
      if finalized {
        assert batches[..|batches|] == batches;
        batches := pending;
      }
    }

    method ApplyNext(b: nat, ghost before: seq<Row>)
      requires InRange(before, Members(batches)) && Distinct(Members(batches)) && Consistent(world) && b < |batches|
      requires forall r :: r in Members(batches) ==> before[r].cf != ""
      requires Checked(before, rows, Members(batches[..b]), row => PersonBulk(world, channel, row))
      modifies this`rows
      ensures Checked(before, rows, Members(batches[..b + 1]), row => PersonBulk(world, channel, row))
    {
      BatchOf(batches, b);
      var ids := batches[b].recipientIds;
      forall k | 0 <= k < |ids| ensures ids[k] < |rows| && rows[ids[k]].cf != "" {
        assert ids[k] in Members(batches);
      }
      ApplyBatch(ids);
    }

    /** The batches applied in memory, up to the first whose answer does not arrive. */
    method ApplyPending(arrives: nat -> bool) returns (pending: seq<Batch>, applied: nat)
      requires InRange(rows, Members(batches)) && Distinct(Members(batches)) && Consistent(world)
      requires forall r :: r in Members(batches) ==> rows[r].cf != ""
      requires NoneDone(batches)
      modifies this`rows
      ensures applied <= |batches| && (forall b: nat :: b < applied ==> arrives(b)) && (applied < |batches| ==> !arrives(applied))
      ensures Checked(old(rows), rows, Members(batches[..applied]), row => PersonBulk(world, channel, row))
      ensures applied == |batches| ==> AllDone(batches, pending)
    {
      ghost var before := rows;
      pending := batches;
      for b := 0 to |batches|
        invariant |pending| == |batches| && Checked(before, rows, Members(batches[..b]), row => PersonBulk(world, channel, row))
        invariant forall k :: 0 <= k < |batches| ==> pending[k] == batches[k].(done := k < b)
        invariant forall k: nat :: k < b ==> arrives(k)
      {
        if !arrives(b) { return pending, b; }
        ApplyNext(b, before);
        pending := pending[b := pending[b].(done := true)];
      }
      applied := |batches|;
    }

    /** The verification jobs, taken in any order. */
    method VerifyAll()
      requires InRange(rows, companies) && unanswered == set c | c in companies
      modifies this`rows, this`unanswered
      ensures Checked(old(rows), rows, companies, row => CompanyCheck(world, channel, row, true)) && unanswered == {}
    {
      ghost var before := rows;
      while unanswered != {}
        invariant |rows| == |before| && unanswered <= set c | c in companies
        invariant forall r :: 0 <= r < |rows| && r in companies && r !in unanswered ==> rows[r] == CompanyCheck(world, channel, before[r], true)
        invariant forall r :: 0 <= r < |rows| && (r !in companies || r in unanswered) ==> rows[r] == before[r]
      {
        var r :| r in unanswered;
        VerifyCompany(r);
      }
    }

    /** The deferred check from launch to end: the company workers, any number of ticks of the cron, the
        last of which may find everything ready. `submit(t, b)` is what the submission of batch b returns at
        tick t, the launch being tick 0: a batch refused at one tick may be accepted at a later one, and it
        takes no more than that for the check to end as the batched path says. */
    method DeferredCheck(ids: seq<nat>, submit: (nat, nat) -> Option<string>, ticks: nat, available: set<string>,
        arrives: nat -> bool) returns (finalized: bool)
      requires InRange(rows, ids) && Distinct(ids) && Consistent(world)
      modifies this
      ensures finalized ==> Checked(old(rows), rows, ids, row => BulkCheck(world, channel, row))
      ensures finalized == (SomebodyListed(old(rows), ids) && AllAnswered(batches, available, arrives))
      ensures SubmittedBy(batches, submit, ticks)
    {
      ghost var before := rows;
      finalized := StartInadBulkCheck(ids, AtTick(submit, 0));
      LaunchSubmits(batches, submit);
      if finalized {
        finalized := AwaitAnswers(ids, submit, ticks, available, arrives);
      }
    }

    /** The companies verified, the ticks, the end. */
    method AwaitAnswers(ids: seq<nat>, submit: (nat, nat) -> Option<string>, ticks: nat, available: set<string>,
        arrives: nat -> bool) returns (finalized: bool)
      requires InRange(rows, ids) && Distinct(ids) && Consistent(world)
      requires companies == CompaniesOf(rows, ids) && Members(batches) == PeopleOf(rows, ids)
      requires NoneDone(batches) && unanswered == (set c | c in companies) && SubmittedBy(batches, submit, 0)
      modifies this`rows, this`batches, this`unanswered
      ensures finalized ==> Checked(old(rows), rows, ids, row => BulkCheck(world, channel, row))
      ensures finalized == AllAnswered(batches, available, arrives)
      ensures SubmittedBy(batches, submit, ticks)
    {
      ghost var before := rows;
      CompaniesInRange(rows, ids);
      VerifyAll();
      ghost var middle := rows;
      PeopleUntouched(world, channel, before, middle, ids);
      Ticks(submit, ticks);
      ghost var applied, was := 0, batches;
      finalized, applied := FinalizeInadCheck(available, arrives);
      if finalized {
        PartsChecked(world, channel, before, middle, rows, ids);
      }
    }

    /** The ticks of the cron as far as submissions go. */
    method Ticks(submit: (nat, nat) -> Option<string>, ticks: nat)
      requires NoneDone(batches) && SubmittedBy(batches, submit, 0)
      modifies this`batches
      ensures Members(batches) == old(Members(batches)) && NoneDone(batches) && SubmittedBy(batches, submit, ticks)
    {
      for t := 0 to ticks
        invariant Members(batches) == old(Members(batches)) && NoneDone(batches) && SubmittedBy(batches, submit, t)
      {
        ghost var was := batches;
        Resubmit(AtTick(submit, t + 1));
        SameMembers(was, batches, AtTick(submit, t + 1));
        TickSubmits(was, batches, submit, t);
      }
    }
  }

  predicate SomebodyListed(rows: seq<Row>, ids: seq<nat>)
    requires InRange(rows, ids)
  {
    exists r :: r in ids && rows[r].cf != ""
  }

  /** Every batch was submitted, INAD has its answer, and the answer can be fetched. */
  predicate AllAnswered(batches: seq<Batch>, available: set<string>, arrives: nat -> bool) {
    forall b: nat :: b < |batches| ==> batches[b].id.Some? && batches[b].id.value in available && arrives(b)
  }

  lemma CompaniesInRange(rows: seq<Row>, ids: seq<nat>)
    requires InRange(rows, ids)
    ensures InRange(rows, CompaniesOf(rows, ids))
  {
  }

  /** The company workers leave the people to the batches. */
  lemma PeopleUntouched(w: World, channel: Channel, before: seq<Row>, rows: seq<Row>, ids: seq<nat>)
    requires InRange(before, ids)
    requires Checked(before, rows, CompaniesOf(before, ids), row => CompanyCheck(w, channel, row, true))
    ensures InRange(rows, PeopleOf(before, ids))
    ensures forall r :: r in PeopleOf(before, ids) ==> rows[r].cf != ""
  {
    var people := PeopleOf(before, ids);
    forall k | 0 <= k < |people| ensures people[k] < |rows| && rows[people[k]].cf != "" {
      assert people[k] in people;
    }
  }

  lemma {:induction false} SameMembers(a: seq<Batch>, b: seq<Batch>, submit: nat -> Option<string>)
    requires Submitted(a, b, submit)
    ensures Members(a) == Members(b)
  {
    if a != [] {
      SameMembers(a[..|a| - 1], b[..|b| - 1], submit);
    }
  }

  /** Everybody on the list ends up checked, whichever way the parts were divided. */
  lemma PartsChecked(w: World, channel: Channel, before: seq<Row>, middle: seq<Row>, after: seq<Row>, ids: seq<nat>)
    requires InRange(before, ids)
    requires Checked(before, middle, CompaniesOf(before, ids), row => CompanyCheck(w, channel, row, true))
    requires Checked(middle, after, PeopleOf(before, ids), row => PersonBulk(w, channel, row))
    ensures Checked(before, after, ids, row => BulkCheck(w, channel, row))
  {
  }

  /** The two paths over a whole campaign: they differ on a recipient exactly when INAD's first address
      for it is empty. */
  lemma CampaignPathsAgree(w: World, channel: Channel, before: seq<Row>, sync: seq<Row>, bulk: seq<Row>, ids: seq<nat>, r: nat)
    requires w.lower("") == "" && InRange(before, ids) && r < |before| && before[r].audit.None? && !before[r].held
    requires Checked(before, sync, ids, row => SyncCheck(w, channel, row, true))
    requires Checked(before, bulk, ids, row => BulkCheck(w, channel, row))
    ensures sync[r] == bulk[r] <==> r !in ids || !EmptyFirstAddress(w, before[r])
    ensures r !in ids || !EmptyFirstAddress(w, before[r]) ==> EffectiveChannel(channel, sync[r]) == EffectiveChannel(channel, bulk[r])
  {
  }

  /** The b-th batch brings in recipients of its own. */
  lemma BatchOf(batches: seq<Batch>, b: nat)
    requires b < |batches| && Distinct(Members(batches))
    ensures Members(batches[..b + 1]) == Members(batches[..b]) + batches[b].recipientIds
    ensures Distinct(batches[b].recipientIds)
    ensures forall r :: r in batches[b].recipientIds ==> r in Members(batches) && r !in Members(batches[..b])
  {
    assert batches[..b + 1][..b] == batches[..b];
    MembersPrefix(batches, b + 1);
    PartOfDistinct(Members(batches[..b]), batches[b].recipientIds, Members(batches));
  }

  lemma PartOfDistinct(a: seq<nat>, b: seq<nat>, all: seq<nat>)
    requires a + b <= all && Distinct(all)
    ensures Distinct(b) && forall r :: r in b ==> r in all && r !in a
  {
    assert forall i :: 0 <= i < |a| ==> all[i] == a[i];
    assert forall i :: 0 <= i < |b| ==> all[|a| + i] == b[i];
  }

  lemma {:induction false} MembersPrefix(batches: seq<Batch>, n: nat)
    requires n <= |batches|
    ensures Members(batches[..n]) <= Members(batches)
  {
    if n < |batches| {
      MembersPrefix(batches[..|batches| - 1], n);
      assert batches[..|batches| - 1][..n] == batches[..n];
    } else {
      assert batches[..n] == batches;
    }
  }

  lemma SomeoneToCheck(rows: seq<Row>, ids: seq<nat>, batches: seq<Batch>)
    requires InRange(rows, ids) && Members(batches) == PeopleOf(rows, ids)
    requires SizesFit(batches, |batches| - 1)
    ensures SomebodyListed(rows, ids) <==> batches != [] || CompaniesOf(rows, ids) != []
  {
    if batches != [] {
      var last := batches[|batches| - 1].recipientIds;
      MemberOf(batches, last[0]);
      assert last[0] in PeopleOf(rows, ids);
    }
    if CompaniesOf(rows, ids) != [] {
      assert CompaniesOf(rows, ids)[0] in CompaniesOf(rows, ids);
    }
    if r :| r in ids && rows[r].cf != "" {
      assert r in PeopleOf(rows, ids) || r in CompaniesOf(rows, ids);
    }
  }
}
