/** buildCostAnalytics: the pass over the attempts as it runs, bucket by bucket and map by map, and
    what it reports, each figure tied to a sum over the attempts. */
module CostReport {
  import opened Text
  import opened CostAnalytics

  datatype MonthCosts = MonthCosts(sendDigitalCents: int, sendAnalogCents: int, postalCents: int)

  datatype SendReference = SendReference(digital: nat, analog: nat, shipCents: int)

  function AddTo(m: map<string, Bucket>, key: string, costCents: int): map<string, Bucket> {
    var b := if key in m then m[key] else Bucket(0, 0);
    m[key := Bucket(b.count + 1, b.costCents + costCents)]
  }

  // ------------------------------------------------------------- what the maps hold

  /** A key is there when something was counted under it, and holds what was. */
  predicate BucketAt(m: map<string, Bucket>, key: string, b: Bucket) {
    (key in m <==> b.count > 0) && (key in m ==> m[key] == b)
  }

  ghost predicate MapOf(m: map<string, Bucket>, rows: seq<Row>, k: Kind, axis: Axis) {
    forall key :: BucketAt(m, key, Tot(rows, Of(k, At(axis, key))))
  }

  ghost predicate ProductsOf(m: map<string, Bucket>, rows: seq<Row>) {
    forall p :: BucketAt(m, p, Tot(rows, Events(p)))
  }

  predicate MonthAt(m: map<string, MonthCosts>, rows: seq<Row>, month: string) {
    var s := Month(month);
    && (month in m <==> Count(rows, Of(Any, s)) > 0)
    && (month in m ==> m[month] == MonthCosts(Sum(rows, Of(Digital, s)), Sum(rows, Of(Analog, s)), Sum(rows, Of(Postal, s))))
  }

  ghost predicate MonthsOf(m: map<string, MonthCosts>, rows: seq<Row>) {
    forall month :: MonthAt(m, rows, month)
  }

  predicate ReferenceAt(m: map<string, SendReference>, rows: seq<Row>, c: string) {
    var s := Campaign(c);
    && (c in m <==> Count(rows, Of(Digital, s)) + Count(rows, Of(Analog, s)) > 0)
    && (c in m ==> m[c] == SendReference(Count(rows, Of(Digital, s)), Count(rows, Of(Analog, s)), Sum(rows, Paper(s))))
  }

  ghost predicate ReferencesOf(m: map<string, SendReference>, rows: seq<Row>) {
    forall c :: ReferenceAt(m, rows, c)
  }

  /** Where nothing was counted nothing was added. */
  lemma {:induction false} NothingCounted(rows: seq<Row>, f: Figure)
    requires Count(rows, f) == 0
    ensures Sum(rows, f) == 0
  {
    if rows != [] {
      NothingCounted(rows[..|rows| - 1], f);
      if f.Events? && Is(rows[|rows| - 1], Analog) {
        NoEvents(rows[|rows| - 1].events, f.product);
      }
    }
  }

  lemma {:induction false} NoEvents(events: seq<Event>, p: string)
    requires EventCount(events, p) == 0
    ensures EventCost(events, p) == 0
  {
    if events != [] {
      NoEvents(events[..|events| - 1], p);
    }
  }

  lemma OneMore(rows: seq<Row>, r: Row, f: Figure)
    ensures Count(rows + [r], f) == Count(rows, f) + Units(r, f)
    ensures Sum(rows + [r], f) == Sum(rows, f) + Amount(r, f)
  {
  }

  lemma MapGrows(m: map<string, Bucket>, rows: seq<Row>, r: Row, k: Kind, axis: Axis)
    requires MapOf(m, rows, k, axis)
    ensures MapOf(if Is(r, k) then AddTo(m, KeyOn(axis, r), r.costCents.value) else m, rows + [r], k, axis)
  {
    var after := if Is(r, k) then AddTo(m, KeyOn(axis, r), r.costCents.value) else m;
    forall key ensures BucketAt(after, key, Tot(rows + [r], Of(k, At(axis, key)))) {
      var f := Of(k, At(axis, key));
      OneMore(rows, r, f);
      assert BucketAt(m, key, Tot(rows, f));
      if Count(rows, f) == 0 {
        NothingCounted(rows, f);
      }
    }
  }

  lemma MonthsGrow(m: map<string, MonthCosts>, rows: seq<Row>, r: Row)
    requires MonthsOf(m, rows)
    ensures MonthsOf(if Costed(r) then m[r.month := NextMonth(m, r)] else m, rows + [r])
  {
    var after := if Costed(r) then m[r.month := NextMonth(m, r)] else m;
    forall month ensures MonthAt(after, rows + [r], month) {
      MonthGrows(m, rows, r, month);
    }
  }

  function NextMonth(m: map<string, MonthCosts>, r: Row): MonthCosts
    requires Costed(r)
  {
    var b := if r.month in m then m[r.month] else MonthCosts(0, 0, 0);
    var cost := r.costCents.value;
    if Is(r, Analog) then b.(sendAnalogCents := b.sendAnalogCents + cost)
    else if r.send then b.(sendDigitalCents := b.sendDigitalCents + cost)
    else b.(postalCents := b.postalCents + cost)
  }

  lemma MonthGrows(m: map<string, MonthCosts>, rows: seq<Row>, r: Row, month: string)
    requires MonthAt(m, rows, month)
    ensures MonthAt(if Costed(r) then m[r.month := NextMonth(m, r)] else m, rows + [r], month)
  {
    var s := Month(month);
    OneMore(rows, r, Of(Any, s));
    OneMore(rows, r, Of(Digital, s));
    OneMore(rows, r, Of(Analog, s));
    OneMore(rows, r, Of(Postal, s));
    KindsAddUp(rows, s);
    if Count(rows, Of(Any, s)) == 0 {
      NothingCounted(rows, Of(Digital, s));
      NothingCounted(rows, Of(Analog, s));
      NothingCounted(rows, Of(Postal, s));
    }
  }

  function NextReference(m: map<string, SendReference>, r: Row): SendReference {
    var b := if r.campaignId in m then m[r.campaignId] else SendReference(0, 0, 0);
    if Is(r, Analog) then b.(analog := b.analog + 1, shipCents := b.shipCents + Ship(r.events))
    else b.(digital := b.digital + 1)
  }

  lemma ReferencesGrow(m: map<string, SendReference>, rows: seq<Row>, r: Row)
    requires ReferencesOf(m, rows)
    ensures ReferencesOf(if Costed(r) && r.send then m[r.campaignId := NextReference(m, r)] else m, rows + [r])
  {
    var after := if Costed(r) && r.send then m[r.campaignId := NextReference(m, r)] else m;
    forall c ensures ReferenceAt(after, rows + [r], c) {
      ReferenceGrows(m, rows, r, c);
    }
  }

  lemma ReferenceGrows(m: map<string, SendReference>, rows: seq<Row>, r: Row, c: string)
    requires ReferenceAt(m, rows, c)
    ensures ReferenceAt(if Costed(r) && r.send then m[r.campaignId := NextReference(m, r)] else m, rows + [r], c)
  {
    var s := Campaign(c);
    OneMore(rows, r, Of(Digital, s));
    OneMore(rows, r, Of(Analog, s));
    OneMore(rows, r, Paper(s));
    PaperCounts(rows, s);
    if Count(rows, Of(Analog, s)) == 0 {
      NothingCounted(rows, Paper(s));
    }
  }

  lemma {:induction false} PaperCounts(rows: seq<Row>, s: Slice)
    ensures Count(rows, Paper(s)) == Count(rows, Of(Analog, s))
  {
    if rows != [] {
      PaperCounts(rows[..|rows| - 1], s);
    }
  }

  // ------------------------------------------------------------- the pass

  class Aggregates {
    var digital: Bucket
    var analog: Bucket
    var baseFeeCents: int
    var analogCostCents: int
    var sendProducts: map<string, Bucket>
    var sendPending: nat
    var postal: Bucket
    var stampaCents: int
    var postaleCents: int
    var arCents: int
    var postalProducts: map<string, Bucket>
    var domestic: Bucket
    var foreign: Bucket
    var postalPending: nat
    var monthly: map<string, MonthCosts>
    var campaigns: map<string, Bucket>
    var sendByCampaign: map<string, SendReference>
    var postalByCampaign: map<string, Bucket>

    ghost predicate SendFits(rows: seq<Row>)
      reads this
    {
      SendTotalsFit(rows) && ProductsOf(sendProducts, rows) && ReferencesOf(sendByCampaign, rows)
    }

    ghost predicate SendTotalsFit(rows: seq<Row>)
      reads this
    {
      && digital == Tot(rows, Of(Digital, All)) && analog == Tot(rows, Of(Analog, All))
      && analogCostCents == Sum(rows, Paper(All)) && baseFeeCents == analog.costCents - analogCostCents
    }

    ghost predicate PostalFits(rows: seq<Row>)
      reads this
    {
      && postal == Tot(rows, Of(Postal, All)) && domestic == Tot(rows, Of(Domestic, All)) && foreign == Tot(rows, Of(Foreign, All))
      && stampaCents == Sum(rows, Component(Stampa)) && postaleCents == Sum(rows, Component(Postale)) && arCents == Sum(rows, Component(Ar))
      && MapOf(postalProducts, rows, Postal, ByProduct) && MapOf(postalByCampaign, rows, Postal, ByCampaign)
    }

    ghost predicate WholeFits(rows: seq<Row>)
      reads this
    {
      && sendPending == Count(rows, Waiting(true)) && postalPending == Count(rows, Waiting(false))
      && MonthsOf(monthly, rows) && MapOf(campaigns, rows, Any, ByCampaign)
    }

    /** Every figure so far is that of the attempts so far. */
    ghost predicate Fits(rows: seq<Row>)
      reads this
    {
      SendFits(rows) && PostalFits(rows) && WholeFits(rows)
    }

    constructor ()
      ensures Fits([])
    {
      digital, analog, baseFeeCents, analogCostCents, sendProducts, sendPending := Bucket(0, 0), Bucket(0, 0), 0, 0, map[], 0;
      postal, stampaCents, postaleCents, arCents, postalProducts := Bucket(0, 0), 0, 0, 0, map[];
      domestic, foreign, postalPending := Bucket(0, 0), Bucket(0, 0), 0;
      monthly, campaigns, sendByCampaign, postalByCampaign := map[], map[], map[], map[];
    }

    /** `for (const e of events) addTo(...)` */
    method AddEvents(r: Row, ghost rows: seq<Row>)
      requires Is(r, Analog) && ProductsOf(sendProducts, rows)
      modifies this`sendProducts
      ensures ProductsOf(sendProducts, rows + [r])
    {
      for i := 0 to |r.events|
        invariant EventsSoFar(sendProducts, rows, r.events[..i])
      {
        EventsGrow(sendProducts, rows, r.events, i);
        sendProducts := AddTo(sendProducts, ProductOf(r.events[i]), r.events[i].analogCostCents);
      }
      assert r.events[..|r.events|] == r.events;
      EventsDone(sendProducts, rows, r);
    }

    method AddSendTotals(r: Row, ghost rows: seq<Row>)
      requires Costed(r) && r.send && SendTotalsFit(rows)
      modifies this`digital, this`analog, this`baseFeeCents, this`analogCostCents
      ensures SendTotalsFit(rows + [r])
    {
      var cost := r.costCents.value;
      SendPushes(rows, r);
      if r.events != [] || r.onPaper {
        var analogPart := Ship(r.events);
        analog := Bucket(analog.count + 1, analog.costCents + cost);
        analogCostCents := analogCostCents + analogPart;
        baseFeeCents := baseFeeCents + cost - analogPart;
      } else {
        digital := Bucket(digital.count + 1, digital.costCents + cost);
      }
    }

    /** One costed SEND attempt. */
    method AddSend(r: Row, ghost rows: seq<Row>)
      requires Costed(r) && r.send && SendFits(rows)
      modifies this`digital, this`analog, this`baseFeeCents, this`analogCostCents, this`sendProducts, this`sendByCampaign
      ensures SendFits(rows + [r])
    {
      AddSendTotals(r, rows);
      if r.events != [] || r.onPaper {
        AddEvents(r, rows);
      } else {
        NoNewEvents(sendProducts, rows, r);
      }
      ReferencesGrow(sendByCampaign, rows, r);
      sendByCampaign := sendByCampaign[r.campaignId := NextReference(sendByCampaign, r)];
    }

    /** One costed postal attempt. */
    method AddPostal(r: Row, ghost rows: seq<Row>)
      requires Costed(r) && !r.send && PostalFits(rows)
      modifies this`postal, this`stampaCents, this`postaleCents, this`arCents, this`postalProducts, this`domestic, this`foreign,
        this`postalByCampaign
      ensures PostalFits(rows + [r])
    {
      var cost := r.costCents.value;
      PostalPushes(rows, r);
      MapGrows(postalProducts, rows, r, Postal, ByProduct);
      MapGrows(postalByCampaign, rows, r, Postal, ByCampaign);
      postal := Bucket(postal.count + 1, postal.costCents + cost);
      stampaCents := stampaCents + EurosToCents(r.stampa);
      postaleCents := postaleCents + EurosToCents(r.postale);
      arCents := arCents + EurosToCents(r.ar);
      postalProducts := AddTo(postalProducts, r.product, cost);
      if r.abroad {
        foreign := Bucket(foreign.count + 1, foreign.costCents + cost);
      } else {
        domestic := Bucket(domestic.count + 1, domestic.costCents + cost);
      }
      postalByCampaign := AddTo(postalByCampaign, r.campaignId, cost);
    }

    /** What every attempt counts for: pending, month, campaign. */
    method AddWhole(r: Row, ghost rows: seq<Row>)
      requires WholeFits(rows)
      modifies this`sendPending, this`postalPending, this`monthly, this`campaigns
      ensures WholeFits(rows + [r])
    {
      OneMore(rows, r, Waiting(true));
      OneMore(rows, r, Waiting(false));
      MonthsGrow(monthly, rows, r);
      MapGrows(campaigns, rows, r, Any, ByCampaign);
      if Costed(r) {
        campaigns := AddTo(campaigns, r.campaignId, r.costCents.value);
        monthly := monthly[r.month := NextMonth(monthly, r)];
      } else if !r.replaced && r.success {
        if r.send {
          sendPending := sendPending + 1;
        } else {
          postalPending := postalPending + 1;
        }
      }
    }

    method AddToSend(r: Row, ghost rows: seq<Row>)
      requires SendFits(rows)
      modifies this`digital, this`analog, this`baseFeeCents, this`analogCostCents, this`sendProducts, this`sendByCampaign
      ensures SendFits(rows + [r])
    {
      if Costed(r) && r.send {
        AddSend(r, rows);
      } else {
        NotSend(this, rows, r);
      }
    }

    method AddToPostal(r: Row, ghost rows: seq<Row>)
      requires PostalFits(rows)
      modifies this`postal, this`stampaCents, this`postaleCents, this`arCents, this`postalProducts, this`domestic, this`foreign,
        this`postalByCampaign
      ensures PostalFits(rows + [r])
    {
      if Costed(r) && !r.send {
        AddPostal(r, rows);
      } else {
        NotPostal(this, rows, r);
      }
    }

    /** The loop body. */
    method Add(r: Row, ghost rows: seq<Row>)
      requires Fits(rows)
      modifies this
      ensures Fits(rows + [r])
    {
      AddWhole(r, rows);
      AddToSend(r, rows);
      AddToPostal(r, rows);
    }

    /** The whole pass. */
    method AddAll(rows: seq<Row>)
      requires Fits([])
      modifies this
      ensures Fits(rows)
    {
      for i := 0 to |rows|
        invariant Fits(rows[..i])
      {
        assert rows[..i + 1] == rows[..i] + [rows[i]];
        Add(rows[i], rows[..i]);
      }
      assert rows[..|rows|] == rows;
    }
  }

  /** What a product has after the rows and some events of the next. */
  function WithEvents(rows: seq<Row>, events: seq<Event>, p: string): Bucket {
    Bucket(Count(rows, Events(p)) + EventCount(events, p), Sum(rows, Events(p)) + EventCost(events, p))
  }

  ghost predicate EventsSoFar(m: map<string, Bucket>, rows: seq<Row>, events: seq<Event>) {
    forall p :: BucketAt(m, p, WithEvents(rows, events, p))
  }

  lemma EventsGrow(m: map<string, Bucket>, rows: seq<Row>, events: seq<Event>, i: nat)
    requires i < |events| && EventsSoFar(m, rows, events[..i])
    ensures EventsSoFar(AddTo(m, ProductOf(events[i]), events[i].analogCostCents), rows, events[..i + 1])
  {
    var after, upTo := AddTo(m, ProductOf(events[i]), events[i].analogCostCents), events[..i + 1];
    forall p ensures BucketAt(after, p, WithEvents(rows, upTo, p)) {
      EventGrows(m, rows, events, i, p);
    }
  }

  lemma EventsDone(m: map<string, Bucket>, rows: seq<Row>, r: Row)
    requires Is(r, Analog) && EventsSoFar(m, rows, r.events)
    ensures ProductsOf(m, rows + [r])
  {
    forall p ensures BucketAt(m, p, Tot(rows + [r], Events(p))) {
      OneMore(rows, r, Events(p));
      assert BucketAt(m, p, WithEvents(rows, r.events, p));
    }
  }

  lemma EventGrows(m: map<string, Bucket>, rows: seq<Row>, events: seq<Event>, i: nat, p: string)
    requires i < |events| && BucketAt(m, p, WithEvents(rows, events[..i], p))
    ensures BucketAt(AddTo(m, ProductOf(events[i]), events[i].analogCostCents), p, WithEvents(rows, events[..i + 1], p))
  {
    assert events[..i + 1][..i] == events[..i];
    if p !in m {
      NothingCounted(rows, Events(p));
      NoEvents(events[..i], p);
    }
  }

  lemma NoNewEvents(m: map<string, Bucket>, rows: seq<Row>, r: Row)
    requires ProductsOf(m, rows) && !Is(r, Analog)
    ensures ProductsOf(m, rows + [r])
  {
  }

  lemma SendPushes(rows: seq<Row>, r: Row)
    requires Costed(r) && r.send
    ensures var x := if Is(r, Analog) then 1 else 0;
      && Count(rows + [r], Of(Digital, All)) == Count(rows, Of(Digital, All)) + 1 - x
      && Count(rows + [r], Of(Analog, All)) == Count(rows, Of(Analog, All)) + x
    ensures var c := r.costCents.value;
      && Sum(rows + [r], Of(Digital, All)) == Sum(rows, Of(Digital, All)) + (if Is(r, Analog) then 0 else c)
      && Sum(rows + [r], Of(Analog, All)) == Sum(rows, Of(Analog, All)) + (if Is(r, Analog) then c else 0)
    ensures Sum(rows + [r], Paper(All)) == Sum(rows, Paper(All)) + if Is(r, Analog) then Ship(r.events) else 0
  {
  }

  lemma PostalPushes(rows: seq<Row>, r: Row)
    ensures forall k :: Tot(rows + [r], Of(k, All)) == Bucket(Count(rows, Of(k, All)) + Units(r, Of(k, All)), Sum(rows, Of(k, All)) + Amount(r, Of(k, All)))
    ensures forall p :: Sum(rows + [r], Component(p)) == Sum(rows, Component(p)) + Amount(r, Component(p))
  {
  }

  lemma NotPostal(report: Aggregates, rows: seq<Row>, r: Row)
    requires report.PostalFits(rows) && !Is(r, Postal)
    ensures report.PostalFits(rows + [r])
  {
  }

  lemma NotSend(report: Aggregates, rows: seq<Row>, r: Row)
    requires report.SendFits(rows) && (!Costed(r) || !r.send)
    ensures report.SendFits(rows + [r])
  {
    OneMore(rows, r, Of(Digital, All));
    OneMore(rows, r, Of(Analog, All));
    OneMore(rows, r, Paper(All));
    NoNewEvents(report.sendProducts, rows, r);
    ReferencesGrow(report.sendByCampaign, rows, r);
  }
}
