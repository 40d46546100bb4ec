/** What follows the pass: averages, savings and sorted lists, and what the finished report promises. */
module CostSavings {
  import opened Text
  import opened CostAnalytics
  import opened CostReport

  // ------------------------------------------------------------- averages

  /** `Math.round(a / b)` on exact quotients. */
  function RoundedAverage(b: Bucket): int {
    if b.count > 0 then Round(b.costCents as real / b.count as real) else 0
  }

  /** Average times count is the total within half a cent each. */
  lemma AverageBound(b: Bucket)
    requires b.count > 0
    ensures 2 * (RoundedAverage(b) * b.count - b.costCents) <= b.count
    ensures 2 * (b.costCents - RoundedAverage(b) * b.count) <= b.count
  {
    var q, c, n := b.costCents as real / b.count as real, b.count as real, RoundedAverage(b);
    RoundBound(q);
    Quotient(b.costCents as real, c);
    Within(q, c, n as real, b.costCents as real);
    ProductOfInts(n, b.count);
    HalfApart(n * b.count, b.costCents, b.count);
  }

  lemma Within(q: real, c: real, n: real, t: real)
    requires 0.0 < c && q * c == t && q - 0.5 <= n <= q + 0.5
    ensures t - 0.5 * c <= n * c <= t + 0.5 * c
  {
    NotNegative(q + 0.5 - n, c);
    NotNegative(n - q + 0.5, c);
    Spread(q, 0.5, n, c);
    Spread(n, 0.5, q, c);
  }

  lemma NotNegative(x: real, c: real)
    requires 0.0 <= x && 0.0 <= c
    ensures 0.0 <= x * c
  {
  }

  lemma Spread(x: real, h: real, y: real, c: real)
    ensures (x + h - y) * c == x * c + h * c - y * c
    ensures (x - y + h) * c == x * c + h * c - y * c
  {
  }

  lemma HalfApart(p: int, t: int, c: int)
    requires t as real - 0.5 * c as real <= p as real <= t as real + 0.5 * c as real
    ensures 2 * (p - t) <= c && 2 * (t - p) <= c
  {
  }

  lemma RoundBound(x: real)
    ensures x - 0.5 <= Round(x) as real <= x + 0.5
  {
  }

  lemma Quotient(x: real, c: real)
    requires c > 0.0
    ensures x / c * c == x
  {
  }

  lemma ProductOfInts(a: int, b: int)
    ensures (a * b) as real == a as real * b as real
  {
  }

  lemma Distribute(x: real, y: real, c: real)
    ensures (x + y) * c == x * c + y * c
  {
  }

  // ------------------------------------------------------------- savings of SEND

  /** How a digital delivery is valued: by the paper of its own campaign, by the fallback, not at all. */
  datatype Valuation = Own | Estimated | NotEstimable

  function ValuationOf(all: seq<Row>, campaign: string, fallback: Option<int>): Valuation {
    if Count(all, Of(Analog, Campaign(campaign))) > 0 then Own
    else if fallback.Some? then Estimated
    else NotEstimable
  }

  /** The paper cost a digital delivery of a campaign avoids. */
  function Avoided(all: seq<Row>, campaign: string, fallback: Option<int>): real {
    var n := Count(all, Of(Analog, Campaign(campaign)));
    if n > 0 then Sum(all, Paper(Campaign(campaign))) as real / n as real
    else if fallback.Some? then fallback.value as real
    else 0.0
  }

  /** n times x, added up. */
  function Repeated(n: nat, x: real): real {
    if n == 0 then 0.0 else Repeated(n - 1, x) + x
  }

  lemma {:induction false} RepeatedIsProduct(n: nat, x: real)
    ensures Repeated(n, x) == n as real * x
  {
    if n > 0 {
      RepeatedIsProduct(n - 1, x);
      Distribute((n - 1) as real, 1.0, x);
    }
  }

  /** The digital deliveries of some campaigns, each at what it avoids. */
  function Saved(all: seq<Row>, rows: seq<Row>, fallback: Option<int>, campaigns: set<string>): real {
    if rows == [] then 0.0
    else
      var r := rows[|rows| - 1];
      Saved(all, rows[..|rows| - 1], fallback, campaigns)
      + if Is(r, Digital) && r.campaignId in campaigns then Avoided(all, r.campaignId, fallback) else 0.0
  }

  /** How many of them are valued one way. */
  function Valued(all: seq<Row>, rows: seq<Row>, fallback: Option<int>, campaigns: set<string>, v: Valuation): nat {
    if rows == [] then 0
    else
      var r := rows[|rows| - 1];
      Valued(all, rows[..|rows| - 1], fallback, campaigns, v)
      + if Is(r, Digital) && r.campaignId in campaigns && ValuationOf(all, r.campaignId, fallback) == v then 1 else 0
  }

  /** One campaign more: its digital deliveries together. */
  lemma {:induction false} SavedGrows(all: seq<Row>, rows: seq<Row>, fallback: Option<int>, campaigns: set<string>, c: string)
    requires c !in campaigns
    ensures Saved(all, rows, fallback, campaigns + {c})
      == Saved(all, rows, fallback, campaigns) + Repeated(Count(rows, Of(Digital, Campaign(c))), Avoided(all, c, fallback))
  {
    if rows != [] {
      SavedGrows(all, rows[..|rows| - 1], fallback, campaigns, c);
    }
  }

  lemma {:induction false} ValuedGrows(all: seq<Row>, rows: seq<Row>, fallback: Option<int>, campaigns: set<string>, c: string, v: Valuation)
    requires c !in campaigns
    ensures Valued(all, rows, fallback, campaigns + {c}, v)
      == Valued(all, rows, fallback, campaigns, v)
         + if ValuationOf(all, c, fallback) == v then Count(rows, Of(Digital, Campaign(c))) else 0
  {
    if rows != [] {
      ValuedGrows(all, rows[..|rows| - 1], fallback, campaigns, c, v);
    }
  }

  /** Every digital delivery is valued in exactly one way. */
  lemma {:induction false} ValuationsAddUp(all: seq<Row>, rows: seq<Row>, fallback: Option<int>, campaigns: set<string>)
    requires forall r :: r in rows && Is(r, Digital) ==> r.campaignId in campaigns
    ensures Valued(all, rows, fallback, campaigns, Own) + Valued(all, rows, fallback, campaigns, Estimated)
      + Valued(all, rows, fallback, campaigns, NotEstimable) == Count(rows, Of(Digital, All))
  {
    if rows != [] {
      assert rows[|rows| - 1] in rows;
      ValuationsAddUp(all, rows[..|rows| - 1], fallback, campaigns);
    }
  }

  /** A digital attempt's campaign is among those of the report. */
  lemma {:induction false} Counted(rows: seq<Row>, r: Row, f: Figure)
    requires r in rows && Units(r, f) > 0
    ensures Count(rows, f) > 0
  {
    var n := |rows| - 1;
    if rows[n] != r {
      assert r in rows[..n];
      Counted(rows[..n], r, f);
    }
  }

  /** What one campaign adds to the savings. */
  function Worth(c: SendReference, fallback: Option<int>): real {
    if c.analog > 0 then c.shipCents as real / c.analog as real else if fallback.Some? then fallback.value as real else 0.0
  }

  lemma OneReference(refs: map<string, SendReference>, rows: seq<Row>, fallback: Option<int>, done: set<string>, id: string)
    requires ReferencesOf(refs, rows) && id in refs && id !in done
    ensures Saved(rows, rows, fallback, done + {id})
      == Saved(rows, rows, fallback, done) + Repeated(refs[id].digital, Worth(refs[id], fallback))
  {
    assert ReferenceAt(refs, rows, id);
    SavedGrows(rows, rows, fallback, done, id);
    assert Avoided(rows, id, fallback) == Worth(refs[id], fallback);
  }

  lemma OneReferenceCounts(refs: map<string, SendReference>, rows: seq<Row>, fallback: Option<int>, done: set<string>, id: string)
    requires ReferencesOf(refs, rows) && id in refs && id !in done
    ensures var c := refs[id];
      && Valued(rows, rows, fallback, done + {id}, Estimated)
           == Valued(rows, rows, fallback, done, Estimated) + (if c.analog == 0 && fallback.Some? then c.digital else 0)
      && Valued(rows, rows, fallback, done + {id}, NotEstimable)
           == Valued(rows, rows, fallback, done, NotEstimable) + (if c.analog == 0 && fallback.None? then c.digital else 0)
  {
    assert ReferenceAt(refs, rows, id);
    ValuedGrows(rows, rows, fallback, done, id, Estimated);
    ValuedGrows(rows, rows, fallback, done, id, NotEstimable);
  }

  /** The savings of some campaigns. */
  predicate SavedSoFar(rows: seq<Row>, fallback: Option<int>, done: set<string>, saving: real, estimated: nat, notEstimable: nat) {
    && saving == Saved(rows, rows, fallback, done)
    && estimated == Valued(rows, rows, fallback, done, Estimated)
    && notEstimable == Valued(rows, rows, fallback, done, NotEstimable)
  }

  method AddReference(refs: map<string, SendReference>, id: string, fallback: Option<int>, saving0: real, estimated0: nat,
      notEstimable0: nat, ghost done: set<string>, ghost rows: seq<Row>) returns (saving: real, estimated: nat, notEstimable: nat)
    requires ReferencesOf(refs, rows) && id in refs && id !in done
    requires SavedSoFar(rows, fallback, done, saving0, estimated0, notEstimable0)
    ensures SavedSoFar(rows, fallback, done + {id}, saving, estimated, notEstimable)
  {
    saving, estimated, notEstimable := saving0, estimated0, notEstimable0;
    var c := refs[id];
    OneReference(refs, rows, fallback, done, id);
    OneReferenceCounts(refs, rows, fallback, done, id);
    RepeatedIsProduct(c.digital, Worth(c, fallback));
    if c.digital == 0 { return; }
    if c.analog > 0 {
      saving := saving + c.digital as real * (c.shipCents as real / c.analog as real);
    } else if fallback.Some? {
      saving := saving + c.digital as real * fallback.value as real;
      estimated := estimated + c.digital;
    } else {
      notEstimable := notEstimable + c.digital;
    }
  }

  /** `for (const c of sendByCampaign.values())` */
  method SumSendSavings(refs: map<string, SendReference>, fallback: Option<int>, ghost rows: seq<Row>)
    returns (saving: real, estimated: nat, notEstimable: nat)
    requires ReferencesOf(refs, rows)
    ensures SavedSoFar(rows, fallback, refs.Keys, saving, estimated, notEstimable)
  {
    var left := refs.Keys;
    ghost var done: set<string> := {};
    saving, estimated, notEstimable := 0.0, 0, 0;
    NothingSaved(rows, rows, fallback);
    while left != {}
      invariant done + left == refs.Keys && done !! left
      invariant SavedSoFar(rows, fallback, done, saving, estimated, notEstimable)
      decreases left
    {
      var id :| id in left;
      saving, estimated, notEstimable := AddReference(refs, id, fallback, saving, estimated, notEstimable, done, rows);
      done, left := done + {id}, left - {id};
    }
    assert done == refs.Keys;
  }

  method SendSavings(report: Aggregates, fallback: Option<int>, ghost rows: seq<Row>)
    returns (sendCents: int, estimated: nat, notEstimable: nat)
    requires report.Fits(rows)
    ensures var cs := report.sendByCampaign.Keys;
      && sendCents == Round(Saved(rows, rows, fallback, cs))
      && estimated == Valued(rows, rows, fallback, cs, Estimated)
      && notEstimable == Valued(rows, rows, fallback, cs, NotEstimable)
      && report.digital.count == Valued(rows, rows, fallback, cs, Own) + estimated + notEstimable
  {
    var saving;
    saving, estimated, notEstimable := SumSendSavings(report.sendByCampaign, fallback, rows);
    DigitalCampaigns(rows, report.sendByCampaign);
    ValuationsAddUp(rows, rows, fallback, report.sendByCampaign.Keys);
    sendCents := Round(saving);
  }

  lemma DigitalCampaigns(rows: seq<Row>, refs: map<string, SendReference>)
    requires ReferencesOf(refs, rows)
    ensures forall r :: r in rows && Is(r, Digital) ==> r.campaignId in refs
  {
    forall r | r in rows && Is(r, Digital) ensures r.campaignId in refs {
      assert ReferenceAt(refs, rows, r.campaignId);
      Counted(rows, r, Of(Digital, Campaign(r.campaignId)));
    }
  }

  lemma {:induction false} NothingSaved(all: seq<Row>, rows: seq<Row>, fallback: Option<int>)
    ensures Saved(all, rows, fallback, {}) == 0.0
    ensures forall v :: Valued(all, rows, fallback, {}, v) == 0
  {
    if rows != [] {
      NothingSaved(all, rows[..|rows| - 1], fallback);
    }
  }

  // ------------------------------------------------------------- savings of POSTAL

  /** Letters diverted, by campaign. */
  function Diverted(entries: seq<(string, nat)>): nat {
    if entries == [] then 0 else Diverted(entries[..|entries| - 1]) + entries[|entries| - 1].1
  }

  /** What a letter of the campaign costs: the campaign's average, else the period's. */
  function Letter(rows: seq<Row>, campaign: string): real {
    var own, period := Tot(rows, Of(Postal, Campaign(campaign))), Tot(rows, Of(Postal, All));
    if own.count > 0 then own.costCents as real / own.count as real
    else if period.count > 0 then period.costCents as real / period.count as real
    else 0.0
  }

  function PostalSaved(rows: seq<Row>, entries: seq<(string, nat)>): real {
    if entries == [] then 0.0
    else
      var e := entries[|entries| - 1];
      PostalSaved(rows, entries[..|entries| - 1]) + e.1 as real * Letter(rows, e.0)
  }

  /** Each campaign's letters are part of the period's. */
  lemma {:induction false} CampaignWithin(rows: seq<Row>, k: Kind, c: string)
    ensures Count(rows, Of(k, Campaign(c))) <= Count(rows, Of(k, All))
  {
    if rows != [] {
      CampaignWithin(rows[..|rows| - 1], k, c);
    }
  }

  /** Postal not estimable is all of the diverted letters when nothing postal was costed, else none. */
  method PostalSavings(report: Aggregates, entries: seq<(string, nat)>, ghost rows: seq<Row>)
    returns (postalCents: int, diverted: nat, notEstimable: nat)
    requires report.Fits(rows)
    ensures postalCents == Round(PostalSaved(rows, entries)) && diverted == Diverted(entries)
    ensures notEstimable == if Count(rows, Of(Postal, All)) == 0 then diverted else 0
  {
    var saving: real := 0.0;
    var byCampaign, period := report.postalByCampaign, report.postal;
    diverted, notEstimable := 0, 0;
    for i := 0 to |entries|
      invariant saving == PostalSaved(rows, entries[..i]) && diverted == Diverted(entries[..i])
      invariant notEstimable == if period.count == 0 then diverted else 0
    {
      assert entries[..i + 1][..i] == entries[..i];
      var (campaign, n) := entries[i];
      assert BucketAt(byCampaign, campaign, Tot(rows, Of(Postal, At(ByCampaign, campaign))));
      CampaignWithin(rows, Postal, campaign);
      if n != 0 {
        diverted := diverted + n;
        if campaign in byCampaign && byCampaign[campaign].count > 0 {
          saving := saving + n as real * (byCampaign[campaign].costCents as real / byCampaign[campaign].count as real);
        } else if period.count > 0 {
          saving := saving + n as real * (period.costCents as real / period.count as real);
        } else {
          notEstimable := notEstimable + n;
        }
      }
    }
    assert entries[..|entries|] == entries;
    postalCents := Round(saving);
  }

  // ------------------------------------------------------------- lists by cost

  datatype Entry = Entry(key: string, bucket: Bucket)

  /** Most expensive first; equal costs by key. */
  predicate Before(a: Entry, b: Entry, le: (string, string) -> bool) {
    a.bucket.costCents > b.bucket.costCents || (a.bucket.costCents == b.bucket.costCents && le(a.key, b.key))
  }

  predicate Sorted(es: seq<Entry>, le: (string, string) -> bool) {
    forall i, j :: 0 <= i < j < |es| ==> Before(es[i], es[j], le)
  }

  predicate Lists(es: seq<Entry>, m: map<string, Bucket>, keys: set<string>) {
    && (forall e :: e in es ==> e.key in keys && e.key in m && e.bucket == m[e.key])
    && (forall k :: k in keys && k in m ==> Entry(k, m[k]) in es)
    && DistinctKeys(es)
  }

  predicate DistinctKeys(es: seq<Entry>) {
    forall i, j :: 0 <= i < j < |es| ==> es[i].key != es[j].key
  }

  /** What the key comparison must be for a list to be well defined: a total order. */
  ghost predicate TotalOrder(le: (string, string) -> bool) {
    && (forall a, b :: le(a, b) || le(b, a))
    && (forall a, b :: le(a, b) && le(b, a) ==> a == b)
    && (forall a, b, c :: le(a, b) && le(b, c) ==> le(a, c))
  }

  /** sortedByCost. */
  method SortedByCost(m: map<string, Bucket>, le: (string, string) -> bool) returns (es: seq<Entry>)
    requires TotalOrder(le)
    ensures Sorted(es, le) && Lists(es, m, m.Keys)
  {
    es := [];
    var left := m.Keys;
    while left != {}
      invariant left <= m.Keys && Sorted(es, le) && Lists(es, m, m.Keys - left)
    {
      var key :| key in left;
      var i := 0;
      while i < |es| && Before(es[i], Entry(key, m[key]), le)
        invariant 0 <= i <= |es|
        invariant forall k :: 0 <= k < i ==> Before(es[k], Entry(key, m[key]), le)
      {
        i := i + 1;
      }
      Inserted(es, m, m.Keys - left, key, i, le);
      es := es[..i] + [Entry(key, m[key])] + es[i..];
      left := left - {key};
      assert m.Keys - left == m.Keys - (left + {key}) + {key};
    }
    assert m.Keys - left == m.Keys;
  }

  lemma Inserted(es: seq<Entry>, m: map<string, Bucket>, keys: set<string>, key: string, i: nat, le: (string, string) -> bool)
    requires TotalOrder(le) && Sorted(es, le) && Lists(es, m, keys) && key in m && key !in keys && i <= |es|
    requires forall k :: 0 <= k < i ==> Before(es[k], Entry(key, m[key]), le)
    requires i < |es| ==> !Before(es[i], Entry(key, m[key]), le)
    ensures var after := es[..i] + [Entry(key, m[key])] + es[i..];
      Sorted(after, le) && Lists(after, m, keys + {key})
  {
    InsertedSorted(es, Entry(key, m[key]), i, le);
    InsertedLists(es, m, keys, key, i);
  }

  lemma InsertedSorted(es: seq<Entry>, e: Entry, i: nat, le: (string, string) -> bool)
    requires TotalOrder(le) && Sorted(es, le) && i <= |es|
    requires forall k :: 0 <= k < i ==> Before(es[k], e, le)
    requires i < |es| ==> !Before(es[i], e, le)
    ensures Sorted(es[..i] + [e] + es[i..], le)
  {
  }

  lemma InsertedLists(es: seq<Entry>, m: map<string, Bucket>, keys: set<string>, key: string, i: nat)
    requires Lists(es, m, keys) && key in m && key !in keys && i <= |es|
    ensures Lists(es[..i] + [Entry(key, m[key])] + es[i..], m, keys + {key})
  {
  }

  /** The list is determined by the map: no order of insertion shows. */
  lemma {:induction false} OneSortedList(a: seq<Entry>, b: seq<Entry>, m: map<string, Bucket>, keys: set<string>, le: (string, string) -> bool)
    requires TotalOrder(le) && Sorted(a, le) && Sorted(b, le) && Lists(a, m, keys) && Lists(b, m, keys)
    ensures a == b
  {
    HeadIsListed(a, b, m, keys);
    HeadIsListed(b, a, m, keys);
    if a != [] {
      SameHead(a, b, m, keys, le);
      SortedRest(a, le);
      SortedRest(b, le);
      Rest(a, m, keys);
      Rest(b, m, keys);
      OneSortedList(a[1..], b[1..], m, keys - {a[0].key}, le);
    }
  }

  lemma SameHead(a: seq<Entry>, b: seq<Entry>, m: map<string, Bucket>, keys: set<string>, le: (string, string) -> bool)
    requires TotalOrder(le) && Sorted(a, le) && Sorted(b, le) && Lists(a, m, keys) && Lists(b, m, keys)
    requires a != [] && b != [] && a[0] in b && b[0] in a
    ensures a[0] == b[0]
  {
  }

  lemma SortedRest(es: seq<Entry>, le: (string, string) -> bool)
    requires es != [] && Sorted(es, le)
    ensures Sorted(es[1..], le)
  {
  }

  lemma HeadIsListed(a: seq<Entry>, b: seq<Entry>, m: map<string, Bucket>, keys: set<string>)
    requires Lists(a, m, keys) && Lists(b, m, keys)
    ensures a != [] ==> a[0] in b && b != []
  {
    if a != [] {
      assert a[0] in a;
      assert Entry(a[0].key, m[a[0].key]) in b;
    }
  }

  lemma Rest(es: seq<Entry>, m: map<string, Bucket>, keys: set<string>)
    requires es != [] && Lists(es, m, keys)
    ensures Lists(es[1..], m, keys - {es[0].key})
  {
  }

  // ------------------------------------------------------------- the report

  /** Every euro of the costed attempts is in the report once: in SEND or POSTAL, in one month, in one
      campaign, in one destination; the analog part divides into base fee and paper, the paper into the
      SEND products, the postal into its products. */
  lemma MoneyIsConserved(report: Aggregates, rows: seq<Row>)
    requires report.Fits(rows)
    ensures var total := report.digital.costCents + report.analog.costCents + report.postal.costCents;
      && total == Sum(rows, Of(Any, All))
      && total == MonthlyTotal(report.monthly)
      && total == MapTotal(report.campaigns)
    ensures report.analog.costCents == report.baseFeeCents + report.analogCostCents
    ensures report.analogCostCents == MapTotal(report.sendProducts)
    ensures report.postal.costCents == report.domestic.costCents + report.foreign.costCents
    ensures report.postal.costCents == MapTotal(report.postalProducts)
  {
    KindsAddUp(rows, All);
    MapAddsUp(report.campaigns, rows, Any, ByCampaign);
    MapAddsUp(report.postalProducts, rows, Postal, ByProduct);
    MonthsAddUp(report.monthly, rows);
    ProductsAddUp(report.sendProducts, rows);
  }

  function CostAt(m: map<string, Bucket>, key: string): int {
    if key in m then m[key].costCents else 0
  }

  ghost function MapTotal(m: map<string, Bucket>): int {
    SumOver(m.Keys, x => CostAt(m, x))
  }

  ghost function MonthlyTotal(m: map<string, MonthCosts>): int {
    SumOver(m.Keys, x => MonthTotal(m, x))
  }

  function MonthTotal(m: map<string, MonthCosts>, key: string): int {
    if key in m then m[key].sendDigitalCents + m[key].sendAnalogCents + m[key].postalCents else 0
  }

  lemma MapAddsUp(m: map<string, Bucket>, rows: seq<Row>, k: Kind, axis: Axis)
    requires MapOf(m, rows, k, axis)
    ensures MapTotal(m) == Sum(rows, Of(k, All))
  {
    forall r | r in rows && Is(r, k) ensures KeyOn(axis, r) in m.Keys {
      assert BucketAt(m, KeyOn(axis, r), Tot(rows, Of(k, At(axis, KeyOn(axis, r)))));
      Counted(rows, r, Of(k, At(axis, KeyOn(axis, r))));
    }
    SharesAddUp(rows, k, axis, m.Keys);
    forall x | x in m.Keys ensures CostAt(m, x) == Sum(rows, Of(k, At(axis, x))) {
      assert BucketAt(m, x, Tot(rows, Of(k, At(axis, x))));
    }
    SumOverChange(m.Keys, x => Sum(rows, Of(k, At(axis, x))), x => CostAt(m, x), "");
  }

  lemma MonthsAddUp(m: map<string, MonthCosts>, rows: seq<Row>)
    requires MonthsOf(m, rows)
    ensures MonthlyTotal(m) == Sum(rows, Of(Any, All))
  {
    forall r | r in rows && Is(r, Any) ensures KeyOn(ByMonth, r) in m.Keys {
      assert MonthAt(m, rows, r.month);
      Counted(rows, r, Of(Any, Month(r.month)));
    }
    SharesAddUp(rows, Any, ByMonth, m.Keys);
    forall x | x in m.Keys ensures MonthTotal(m, x) == Sum(rows, Of(Any, At(ByMonth, x))) {
      assert MonthAt(m, rows, x);
      KindsAddUp(rows, Month(x));
    }
    SumOverChange(m.Keys, x => Sum(rows, Of(Any, At(ByMonth, x))), x => MonthTotal(m, x), "");
  }

  lemma ProductsAddUp(m: map<string, Bucket>, rows: seq<Row>)
    requires ProductsOf(m, rows)
    ensures MapTotal(m) == Sum(rows, Paper(All))
  {
    forall r, e | r in rows && Is(r, Analog) && e in r.events ensures ProductOf(e) in m.Keys {
      assert BucketAt(m, ProductOf(e), Tot(rows, Events(ProductOf(e))));
      EventCounted(r.events, e);
      Counted(rows, r, Events(ProductOf(e)));
    }
    SendProductsAddUp(rows, m.Keys);
    forall p | p in m.Keys ensures CostAt(m, p) == Sum(rows, Events(p)) {
      assert BucketAt(m, p, Tot(rows, Events(p)));
    }
    SumOverChange(m.Keys, p => Sum(rows, Events(p)), p => CostAt(m, p), "");
  }

  lemma {:induction false} EventCounted(events: seq<Event>, e: Event)
    requires e in events
    ensures EventCount(events, ProductOf(e)) > 0
  {
    var n := |events| - 1;
    if events[n] != e {
      assert e in events[..n];
      EventCounted(events[..n], e);
    }
  }

  // ------------------------------------------------------------- the report as a whole

  /** The figures of the DTO that are not already fields of the pass. */
  datatype Derived = Derived(totalCostCents: int, avgPostalCents: int, sendProducts: seq<Entry>, postalProducts: seq<Entry>,
    sendCents: int, sendEstimated: nat, sendNotEstimable: nat, postalCents: int, postalDiverted: nat, postalNotEstimable: nat)

  /** The savings are those of the attempts and of the diverted letters. */
  predicate SavingsFit(d: Derived, rows: seq<Row>, entries: seq<(string, nat)>, fallback: Option<int>, campaigns: set<string>) {
    && d.sendCents == Round(Saved(rows, rows, fallback, campaigns))
    && d.sendEstimated == Valued(rows, rows, fallback, campaigns, Estimated)
    && d.sendNotEstimable == Valued(rows, rows, fallback, campaigns, NotEstimable)
    && d.postalCents == Round(PostalSaved(rows, entries)) && d.postalDiverted == Diverted(entries)
    && d.postalNotEstimable == if Count(rows, Of(Postal, All)) == 0 then d.postalDiverted else 0
  }

  ghost predicate ListsFit(report: Aggregates, d: Derived, le: (string, string) -> bool)
    reads report
  {
    && Sorted(d.sendProducts, le) && Lists(d.sendProducts, report.sendProducts, report.sendProducts.Keys)
    && Sorted(d.postalProducts, le) && Lists(d.postalProducts, report.postalProducts, report.postalProducts.Keys)
  }

  ghost predicate Describes(report: Aggregates, d: Derived, rows: seq<Row>, entries: seq<(string, nat)>, fallback: Option<int>,
      le: (string, string) -> bool)
    reads report
  {
    && report.Fits(rows) && ListsFit(report, d, le)
    && SavingsFit(d, rows, entries, fallback, report.sendByCampaign.Keys)
    && d.totalCostCents == Sum(rows, Of(Any, All)) && d.avgPostalCents == RoundedAverage(report.postal)
  }

  /** buildCostAnalytics. Every digital delivery is valued by its own campaign, estimated or not estimable. */
  method BuildCostAnalytics(rows: seq<Row>, postalDivertedByCampaign: seq<(string, nat)>, sendFallbackShipCents: Option<int>,
      le: (string, string) -> bool) returns (report: Aggregates, d: Derived)
    requires TotalOrder(le)
    ensures Describes(report, d, rows, postalDivertedByCampaign, sendFallbackShipCents, le)
    ensures report.digital.count == d.sendEstimated + d.sendNotEstimable
      + Valued(rows, rows, sendFallbackShipCents, report.sendByCampaign.Keys, Own)
  {
    report := new Aggregates();
    report.AddAll(rows);
    var sendProducts := SortedByCost(report.sendProducts, le);
    var postalProducts := SortedByCost(report.postalProducts, le);
    var sendCents, estimated, notEstimable := SendSavings(report, sendFallbackShipCents, rows);
    var postalCents, diverted, postalNotEstimable := PostalSavings(report, postalDivertedByCampaign, rows);
    MoneyIsConserved(report, rows);
    d := Derived(report.digital.costCents + report.analog.costCents + report.postal.costCents, RoundedAverage(report.postal),
      sendProducts, postalProducts, sendCents, estimated, notEstimable, postalCents, diverted, postalNotEstimable);
  }
}
