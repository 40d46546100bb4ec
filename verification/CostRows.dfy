/** What one attempt changes in the cost report, said on the attempt's own fields. */
module CostRows {
  import opened Text
  import opened CostAnalytics
  import opened CostReport
  import opened CostSavings
  import opened CostOrder

  // ------------------------------------------------------------- an attempt without a cost

  /** No cost, the carrier's placeholder 0, or a letter replaced by App IO: the whole report stays what it was,
      but for one attempt more that waits, when it succeeded and was not replaced. */
  lemma UncostedRow(a: Aggregates, b: Aggregates, da: Derived, db: Derived, rows: seq<Row>, r: Row,
      entries: seq<(string, nat)>, fallback: Option<int>, le: (string, string) -> bool)
    requires r.replaced || r.costCents == None || r.costCents == Some(0)
    requires TotalOrder(le)
    requires Describes(a, da, rows, entries, fallback, le) && Describes(b, db, rows + [r], entries, fallback, le)
    ensures SameSend(a, b) && SamePostal(a, b) && SameWhole(a, b) && da == db
    ensures b.sendPending == a.sendPending + if r.success && !r.replaced && r.send then 1 else 0
    ensures b.postalPending == a.postalPending + if r.success && !r.replaced && !r.send then 1 else 0
  {
    forall f: Figure | !f.Waiting? ensures Tot(rows, f) == Tot(rows + [r], f) {
      OneMore(rows, r, f);
    }
    assert (rows + [r])[..|rows|] == rows;
    OneMore(rows, r, Waiting(true));
    OneMore(rows, r, Waiting(false));
    SameReport(a, b, da, db, rows, rows + [r], entries, fallback, le);
  }

  // ------------------------------------------------------------- an attempt with a cost

  function More(b: Bucket, costCents: int): Bucket {
    Bucket(b.count + 1, b.costCents + costCents)
  }

  /** The total grows by the cost and exactly one of SEND digital, SEND on paper and POSTAL gains one. */
  lemma CostedRow(a: Aggregates, b: Aggregates, rows: seq<Row>, r: Row)
    requires !r.replaced && r.costCents.Some? && r.costCents.value != 0
    requires a.Fits(rows) && b.Fits(rows + [r])
    ensures SamePending(a, b)
    ensures b.digital.costCents + b.analog.costCents + b.postal.costCents
      == a.digital.costCents + a.analog.costCents + a.postal.costCents + r.costCents.value
    ensures b.digital == if r.send && r.events == [] && !r.onPaper then More(a.digital, r.costCents.value) else a.digital
    ensures b.analog == if r.send && (r.events != [] || r.onPaper) then More(a.analog, r.costCents.value) else a.analog
    ensures b.postal == if !r.send then More(a.postal, r.costCents.value) else a.postal
    ensures b.domestic == if !r.send && !r.abroad then More(a.domestic, r.costCents.value) else a.domestic
    ensures b.foreign == if !r.send && r.abroad then More(a.foreign, r.costCents.value) else a.foreign
  {
    OneMore(rows, r, Waiting(true));
    OneMore(rows, r, Waiting(false));
    KindGrows(rows, r, Digital);
    KindGrows(rows, r, Analog);
    KindGrows(rows, r, Postal);
    KindGrows(rows, r, Domestic);
    KindGrows(rows, r, Foreign);
  }

  lemma KindGrows(rows: seq<Row>, r: Row, k: Kind)
    requires Costed(r)
    ensures var f := Of(k, All);
      Tot(rows + [r], f) == if Is(r, k) then More(Tot(rows, f), r.costCents.value) else Tot(rows, f)
  {
    OneMore(rows, r, Of(k, All));
  }

  // ------------------------------------------------------------- by campaign, by month, by product

  /** One count and one cost more under one key, everything else as before. */
  ghost predicate Grew(a: map<string, Bucket>, b: map<string, Bucket>, key: string, costCents: int) {
    && b.Keys == a.Keys + {key}
    && b[key] == (if key in a then More(a[key], costCents) else Bucket(1, costCents))
    && forall k :: k in a && k != key ==> b[k] == a[k]
  }

  lemma MapGrew(a: map<string, Bucket>, b: map<string, Bucket>, rows: seq<Row>, r: Row, k: Kind, axis: Axis)
    requires MapOf(a, rows, k, axis) && MapOf(b, rows + [r], k, axis)
    ensures Is(r, k) ==> Grew(a, b, KeyOn(axis, r), r.costCents.value)
    ensures !Is(r, k) ==> a == b
  {
    var c := if Is(r, k) then AddTo(a, KeyOn(axis, r), r.costCents.value) else a;
    MapGrows(a, rows, r, k, axis);
    forall key ensures SameAt(c, b, key) {
      assert BucketAt(c, key, Tot(rows + [r], Of(k, At(axis, key)))) && BucketAt(b, key, Tot(rows + [r], Of(k, At(axis, key))));
    }
    SameMap(c, b);
    assert !Is(r, k) ==> c == a;
  }

  /** A costed attempt is in its campaign and, when it is a letter, in its product. */
  lemma CostedRowByKey(a: Aggregates, b: Aggregates, rows: seq<Row>, r: Row)
    requires !r.replaced && r.costCents.Some? && r.costCents.value != 0
    requires a.Fits(rows) && b.Fits(rows + [r])
    ensures Grew(a.campaigns, b.campaigns, r.campaignId, r.costCents.value)
    ensures !r.send ==> Grew(a.postalByCampaign, b.postalByCampaign, r.campaignId, r.costCents.value)
    ensures !r.send ==> Grew(a.postalProducts, b.postalProducts, r.product, r.costCents.value)
    ensures r.send ==> a.postalByCampaign == b.postalByCampaign && a.postalProducts == b.postalProducts
  {
    MapGrew(a.campaigns, b.campaigns, rows, r, Any, ByCampaign);
    MapGrew(a.postalByCampaign, b.postalByCampaign, rows, r, Postal, ByCampaign);
    MapGrew(a.postalProducts, b.postalProducts, rows, r, Postal, ByProduct);
  }

  function CostsOf(m: map<string, MonthCosts>, month: string): MonthCosts {
    if month in m then m[month] else MonthCosts(0, 0, 0)
  }

  /** It is in its month and in no other, under SEND digital, SEND on paper or POSTAL. */
  lemma CostedRowByMonth(a: Aggregates, b: Aggregates, rows: seq<Row>, r: Row, month: string)
    requires !r.replaced && r.costCents.Some? && r.costCents.value != 0
    requires a.Fits(rows) && b.Fits(rows + [r])
    ensures month in b.monthly <==> month in a.monthly || month == r.month
    ensures month != r.month ==> CostsOf(b.monthly, month) == CostsOf(a.monthly, month)
    ensures var was, now, cost := CostsOf(a.monthly, r.month), CostsOf(b.monthly, r.month), r.costCents.value;
      && now.sendDigitalCents == was.sendDigitalCents + (if r.send && r.events == [] && !r.onPaper then cost else 0)
      && now.sendAnalogCents == was.sendAnalogCents + (if r.send && (r.events != [] || r.onPaper) then cost else 0)
      && now.postalCents == was.postalCents + (if !r.send then cost else 0)
  {
    OneMonth(a, b, rows, r, month);
    OneMonth(a, b, rows, r, r.month);
  }

  lemma OneMonth(a: Aggregates, b: Aggregates, rows: seq<Row>, r: Row, month: string)
    requires Costed(r) && a.Fits(rows) && b.Fits(rows + [r])
    ensures SameAt(a.monthly[r.month := NextMonth(a.monthly, r)], b.monthly, month)
  {
    assert MonthAt(a.monthly, rows, month) && MonthAt(b.monthly, rows + [r], month);
    MonthGrows(a.monthly, rows, r, month);
  }

  // ------------------------------------------------------------- the paper of SEND

  /** The paper part of an attempt is that of its events, one by one. */
  lemma {:induction false} ShipOfEvents(es: seq<Event>, fs: seq<Event>, e: Event)
    ensures Ship([]) == 0 && Ship([e]) == e.analogCostCents && Ship(es + fs) == Ship(es) + Ship(fs)
  {
    assert [e][..0] == [];
    if fs == [] {
      assert es + fs == es;
    } else {
      assert (es + fs)[..|es + fs| - 1] == es + fs[..|fs| - 1];
      ShipOfEvents(es, fs[..|fs| - 1], e);
    }
  }

  /** How many of some events are of one product and what they cost; an event without a product counts under "N/D". */
  lemma {:induction false} CostOfEvents(es: seq<Event>, fs: seq<Event>, e: Event, p: string)
    ensures EventCost([], p) == 0 && EventCost(es + fs, p) == EventCost(es, p) + EventCost(fs, p)
    ensures EventCount([], p) == 0 && EventCount(es + fs, p) == EventCount(es, p) + EventCount(fs, p)
    ensures var under := p == if e.productType != "" then e.productType else "N/D";
      && EventCost([e], p) == (if under then e.analogCostCents else 0)
      && EventCount([e], p) == (if under then 1 else 0)
  {
    assert [e][..0] == [];
    if fs == [] {
      assert es + fs == es;
    } else {
      assert (es + fs)[..|es + fs| - 1] == es + fs[..|fs| - 1];
      CostOfEvents(es, fs[..|fs| - 1], e, p);
    }
  }

  /** The paper of a SEND attempt with a cost goes to the analog part, the rest of its cost to the base fee. */
  lemma CostedPaper(a: Aggregates, b: Aggregates, rows: seq<Row>, r: Row)
    requires !r.replaced && r.costCents.Some? && r.costCents.value != 0
    requires a.Fits(rows) && b.Fits(rows + [r])
    ensures var paper := r.send && (r.events != [] || r.onPaper);
      && b.analogCostCents == a.analogCostCents + (if paper then Ship(r.events) else 0)
      && b.baseFeeCents == a.baseFeeCents + (if paper then r.costCents.value - Ship(r.events) else 0)
    ensures r.send ==> forall p :: CostAt(b.sendProducts, p) == CostAt(a.sendProducts, p) + EventCost(r.events, p)
    ensures r.send ==> forall p :: CountAt(b.sendProducts, p) == CountAt(a.sendProducts, p) + EventCount(r.events, p)
    ensures !r.send ==> a.sendProducts == b.sendProducts
  {
    CostedRow(a, b, rows, r);
    OneMore(rows, r, Paper(All));
    forall p ensures r.send ==> Bought(b.sendProducts, p) == Bucket(CountAt(a.sendProducts, p) + EventCount(r.events, p),
                                                                 CostAt(a.sendProducts, p) + EventCost(r.events, p)) {
      OneMore(rows, r, Events(p));
      ProductCosts(a.sendProducts, rows, p);
      ProductCosts(b.sendProducts, rows + [r], p);
    }
    if !r.send {
      OtherProducts(a, b, rows, r);
    }
  }

  function PaperOf(m: map<string, SendReference>, c: string): SendReference {
    if c in m then m[c] else SendReference(0, 0, 0)
  }

  /** What the savings are reckoned on: the digital deliveries, the paper ones and their paper, by campaign. */
  lemma CostedReference(a: Aggregates, b: Aggregates, rows: seq<Row>, r: Row, c: string)
    requires !r.replaced && r.costCents.Some? && r.costCents.value != 0
    requires a.Fits(rows) && b.Fits(rows + [r])
    ensures c in b.sendByCampaign <==> c in a.sendByCampaign || (r.send && c == r.campaignId)
    ensures var was, now := PaperOf(a.sendByCampaign, c), PaperOf(b.sendByCampaign, c);
      now == if !r.send || c != r.campaignId then was
             else if r.events == [] && !r.onPaper then was.(digital := was.digital + 1)
             else was.(analog := was.analog + 1, shipCents := was.shipCents + Ship(r.events))
  {
    assert ReferenceAt(a.sendByCampaign, rows, c) && ReferenceAt(b.sendByCampaign, rows + [r], c);
    ReferenceGrows(a.sendByCampaign, rows, r, c);
  }

  lemma OtherProducts(a: Aggregates, b: Aggregates, rows: seq<Row>, r: Row)
    requires !r.send && a.Fits(rows) && b.Fits(rows + [r])
    ensures a.sendProducts == b.sendProducts
  {
    forall p ensures SameAt(a.sendProducts, b.sendProducts, p) {
      OneMore(rows, r, Events(p));
      assert BucketAt(a.sendProducts, p, Tot(rows, Events(p))) && BucketAt(b.sendProducts, p, Tot(rows + [r], Events(p)));
    }
    SameMap(a.sendProducts, b.sendProducts);
  }

  function CountAt(m: map<string, Bucket>, key: string): int {
    if key in m then m[key].count else 0
  }

  function Bought(m: map<string, Bucket>, key: string): Bucket {
    Bucket(CountAt(m, key), CostAt(m, key))
  }

  lemma ProductCosts(m: map<string, Bucket>, rows: seq<Row>, p: string)
    requires ProductsOf(m, rows)
    ensures Bought(m, p) == Tot(rows, Events(p))
  {
    assert BucketAt(m, p, Tot(rows, Events(p)));
    if p !in m {
      NothingCounted(rows, Events(p));
    }
  }

  // ------------------------------------------------------------- the parts of a letter

  /** `Math.round`: the nearest whole number, halves upwards. */
  lemma RoundHalfUp(x: real, n: int)
    ensures Round(x) == n <==> n as real - 0.5 <= x < n as real + 0.5
  {
  }

  /** The printing, the postage and the receipt of a letter, each in whole cents; a missing one is nothing. */
  lemma CostedLetter(a: Aggregates, b: Aggregates, rows: seq<Row>, r: Row)
    requires !r.replaced && r.costCents.Some? && r.costCents.value != 0 && !r.send
    requires a.Fits(rows) && b.Fits(rows + [r])
    ensures Cents(r.stampa, b.stampaCents - a.stampaCents)
    ensures Cents(r.postale, b.postaleCents - a.postaleCents)
    ensures Cents(r.ar, b.arCents - a.arCents)
  {
    forall p ensures Sum(rows + [r], Component(p)) == Sum(rows, Component(p)) + Amount(r, Component(p)) {
      OneMore(rows, r, Component(p));
    }
    assert Amount(r, Component(Stampa)) == EurosToCents(r.stampa);
    assert Amount(r, Component(Postale)) == EurosToCents(r.postale);
    assert Amount(r, Component(Ar)) == EurosToCents(r.ar);
  }

  /** The whole number of cents nearest to an amount in euro. */
  predicate Cents(euro: Option<real>, cents: int) {
    if euro.Some? then cents as real - 0.5 <= euro.value * 100.0 < cents as real + 0.5 else cents == 0
  }

  // ------------------------------------------------------------- savings of one campaign

  /** With one SEND campaign, its digital deliveries save the average paper of the campaign; without any paper
      the fallback, and then all are estimated; without either nothing, and none is estimable. */
  lemma OneCampaignSaves(a: Aggregates, d: Derived, rows: seq<Row>, c: string, entries: seq<(string, nat)>, fallback: Option<int>,
      le: (string, string) -> bool)
    requires Describes(a, d, rows, entries, fallback, le) && a.sendByCampaign.Keys == {c}
    ensures var s := a.sendByCampaign[c]; var n := s.digital as real;
      && d.sendCents == Round(if s.analog > 0 then n * (s.shipCents as real / s.analog as real)
                              else if fallback.Some? then n * fallback.value as real else 0.0)
      && d.sendEstimated == (if s.analog == 0 && fallback.Some? then s.digital else 0)
      && d.sendNotEstimable == (if s.analog == 0 && fallback == None then s.digital else 0)
  {
    OneCampaignSaved(a.sendByCampaign, rows, c, fallback);
    OneCampaignCounted(a.sendByCampaign, rows, c, fallback);
  }

  lemma OneCampaignSaved(refs: map<string, SendReference>, rows: seq<Row>, c: string, fallback: Option<int>)
    requires ReferencesOf(refs, rows) && c in refs
    ensures Saved(rows, rows, fallback, {c}) == refs[c].digital as real * Worth(refs[c], fallback)
  {
    NothingSaved(rows, rows, fallback);
    assert {} + {c} == {c};
    OneReference(refs, rows, fallback, {}, c);
    RepeatedIsProduct(refs[c].digital, Worth(refs[c], fallback));
  }

  lemma OneCampaignCounted(refs: map<string, SendReference>, rows: seq<Row>, c: string, fallback: Option<int>)
    requires ReferencesOf(refs, rows) && c in refs
    ensures var s := refs[c];
      && Valued(rows, rows, fallback, {c}, Estimated) == (if s.analog == 0 && fallback.Some? then s.digital else 0)
      && Valued(rows, rows, fallback, {c}, NotEstimable) == (if s.analog == 0 && fallback == None then s.digital else 0)
  {
    NothingSaved(rows, rows, fallback);
    assert {} + {c} == {c};
    OneReferenceCounts(refs, rows, fallback, {}, c);
  }

  /** The letters of one campaign save the average letter of the campaign, else of the period, else nothing. */
  lemma OneDiversionSaves(a: Aggregates, d: Derived, rows: seq<Row>, c: string, n: nat, fallback: Option<int>,
      le: (string, string) -> bool)
    requires Describes(a, d, rows, [(c, n)], fallback, le)
    ensures d.postalDiverted == n && d.postalNotEstimable == if a.postal.count == 0 then n else 0
    ensures var letter := if c in a.postalByCampaign && a.postalByCampaign[c].count > 0 then Average(a.postalByCampaign[c])
                          else if a.postal.count > 0 then Average(a.postal) else 0.0;
      d.postalCents == Round(n as real * letter)
  {
    LetterIs(a, rows, c);
    OneDiversion(rows, c, n);
  }

  lemma OneDiversion(rows: seq<Row>, c: string, n: nat)
    ensures PostalSaved(rows, [(c, n)]) == n as real * Letter(rows, c) && Diverted([(c, n)]) == n
  {
    assert [(c, n)][..0] == [];
  }

  function Average(b: Bucket): real
    requires b.count > 0
  {
    b.costCents as real / b.count as real
  }

  lemma LetterIs(a: Aggregates, rows: seq<Row>, c: string)
    requires a.PostalFits(rows)
    ensures Letter(rows, c) == if c in a.postalByCampaign && a.postalByCampaign[c].count > 0 then Average(a.postalByCampaign[c])
      else if a.postal.count > 0 then Average(a.postal) else 0.0
  {
    assert BucketAt(a.postalByCampaign, c, Tot(rows, Of(Postal, At(ByCampaign, c))));
  }
}
