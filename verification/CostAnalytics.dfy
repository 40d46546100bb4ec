/** Cost statistics: one pass over the attempts fills every bucket, then averages and savings. */
module CostAnalytics {
  import opened Text

  /** An event of the PN timeline; a missing product type is the empty text, a missing amount 0. */
  datatype Event = Event(productType: string, analogCostCents: int)

  /** An attempt. `replaced` is postalStatus AppIoSostituito, `onPaper` a digital domicile of type
      CARTACEO, `abroad` a breakdown whose `nazionale` is false; amounts of the breakdown are in euro. */
  datatype Row = Row(
    send: bool, success: bool, costCents: Option<int>, replaced: bool,
    events: seq<Event>, onPaper: bool,
    product: string, abroad: bool, stampa: Option<real>, postale: Option<real>, ar: Option<real>,
    campaignId: string, month: string)

  datatype Bucket = Bucket(count: int, costCents: int)

  // ------------------------------------------------------------- what a row counts for

  /** A cost of 0 is GlobalCom's placeholder, like NULL; a replaced sending never costs. */
  predicate Costed(r: Row) {
    !r.replaced && r.costCents.Some? && r.costCents.value != 0
  }

  datatype Kind = Any | Digital | Analog | Postal | Domestic | Foreign

  predicate Is(r: Row, k: Kind) {
    Costed(r) && match k
      case Any => true
      case Digital => r.send && r.events == [] && !r.onPaper
      case Analog => r.send && (r.events != [] || r.onPaper)
      case Postal => !r.send
      case Domestic => !r.send && !r.abroad
      case Foreign => !r.send && r.abroad
  }

  /** A selection of rows: all, those of a month, of a campaign, of a postal product. */
  datatype Slice = All | Month(month: string) | Campaign(id: string) | Product(name: string)

  predicate In(r: Row, s: Slice) {
    match s
    case All => true
    case Month(m) => r.month == m
    case Campaign(id) => r.campaignId == id
    case Product(name) => r.product == name
  }

  datatype Part = Stampa | Postale | Ar

  /** What a figure of the report adds up: the cost of a kind in a selection, the paper part of the
      analog attempts, the events of one product, the attempts not costed yet, a postal component. */
  datatype Figure =
    | Of(kind: Kind, slice: Slice)
    | Paper(slice: Slice)
    | Events(product: string)
    | Waiting(send: bool)
    | Component(part: Part)

  function ProductOf(e: Event): string {
    if e.productType == "" then "N/D" else e.productType
  }

  /** `Math.round` of a real number. */
  function Round(x: real): int {
    (x + 0.5).Floor
  }

  function EurosToCents(v: Option<real>): int {
    if v.Some? then Round(v.value * 100.0) else 0
  }

  /** Sum of analogCost over the timeline. */
  function Ship(events: seq<Event>): int {
    if events == [] then 0 else Ship(events[..|events| - 1]) + events[|events| - 1].analogCostCents
  }

  function EventCount(events: seq<Event>, product: string): nat {
    if events == [] then 0
    else EventCount(events[..|events| - 1], product) + if ProductOf(events[|events| - 1]) == product then 1 else 0
  }

  function EventCost(events: seq<Event>, product: string): int {
    if events == [] then 0
    else
      var e := events[|events| - 1];
      EventCost(events[..|events| - 1], product) + if ProductOf(e) == product then e.analogCostCents else 0
  }

  /** How often one attempt counts in a figure. */
  function Units(r: Row, f: Figure): nat {
    match f
    case Of(k, s) => if Is(r, k) && In(r, s) then 1 else 0
    case Paper(s) => if Is(r, Analog) && In(r, s) then 1 else 0
    case Events(product) => if Is(r, Analog) then EventCount(r.events, product) else 0
    case Waiting(send) => if !r.replaced && !Costed(r) && r.success && r.send == send then 1 else 0
    case Component(_) => if Is(r, Postal) then 1 else 0
  }

  /** What one attempt adds to a figure. */
  function Amount(r: Row, f: Figure): int {
    match f
    case Of(k, s) => if Is(r, k) && In(r, s) then r.costCents.value else 0
    case Paper(s) => if Is(r, Analog) && In(r, s) then Ship(r.events) else 0
    case Events(product) => if Is(r, Analog) then EventCost(r.events, product) else 0
    case Waiting(_) => 0
    case Component(part) =>
      if Is(r, Postal) then EurosToCents(if part == Stampa then r.stampa else if part == Postale then r.postale else r.ar)
      else 0
  }

  function Count(rows: seq<Row>, f: Figure): nat {
    if rows == [] then 0 else Count(rows[..|rows| - 1], f) + Units(rows[|rows| - 1], f)
  }

  function Sum(rows: seq<Row>, f: Figure): int {
    if rows == [] then 0 else Sum(rows[..|rows| - 1], f) + Amount(rows[|rows| - 1], f)
  }

  function Tot(rows: seq<Row>, f: Figure): Bucket {
    Bucket(Count(rows, f), Sum(rows, f))
  }

  // ------------------------------------------------------------- money is conserved

  /** In any selection SEND digital, SEND analog and postal make the whole, domestic and foreign the postal. */
  lemma {:induction false} KindsAddUp(rows: seq<Row>, s: Slice)
    ensures Sum(rows, Of(Digital, s)) + Sum(rows, Of(Analog, s)) + Sum(rows, Of(Postal, s)) == Sum(rows, Of(Any, s))
    ensures Sum(rows, Of(Domestic, s)) + Sum(rows, Of(Foreign, s)) == Sum(rows, Of(Postal, s))
    ensures Count(rows, Of(Digital, s)) + Count(rows, Of(Analog, s)) + Count(rows, Of(Postal, s)) == Count(rows, Of(Any, s))
    ensures Count(rows, Of(Domestic, s)) + Count(rows, Of(Foreign, s)) == Count(rows, Of(Postal, s))
  {
    if rows != [] {
      KindsAddUp(rows[..|rows| - 1], s);
    }
  }

  /** A sum over the keys of a map. */
  ghost function SumOver(keys: set<string>, f: string -> int): int {
    if keys == {} then 0
    else
      var k :| k in keys;
      f(k) + SumOver(keys - {k}, f)
  }

  lemma {:induction false} SumOverRemove(keys: set<string>, f: string -> int, k: string)
    requires k in keys
    ensures SumOver(keys, f) == f(k) + SumOver(keys - {k}, f)
  {
    var c :| c in keys && SumOver(keys, f) == f(c) + SumOver(keys - {c}, f);
    if c != k {
      SumOverRemove(keys - {c}, f, k);
      SumOverRemove(keys - {k}, f, c);
      assert keys - {c} - {k} == keys - {k} - {c};
    }
  }

  /** Changing the summand at one key changes the sum by as much. */
  lemma {:induction false} SumOverChange(keys: set<string>, f: string -> int, g: string -> int, k: string)
    requires forall x :: x in keys && x != k ==> f(x) == g(x)
    ensures SumOver(keys, g) == SumOver(keys, f) + if k in keys then g(k) - f(k) else 0
  {
    if keys != {} {
      var x := if k in keys then k else var c :| c in keys; c;
      SumOverRemove(keys, f, x);
      SumOverRemove(keys, g, x);
      SumOverChange(keys - {x}, f, g, k);
    }
  }

  lemma {:induction false} SumOverZero(keys: set<string>, f: string -> int)
    requires forall k :: k in keys ==> f(k) == 0
    ensures SumOver(keys, f) == 0
  {
    if keys != {} {
      var k :| k in keys;
      SumOverRemove(keys, f, k);
      SumOverZero(keys - {k}, f);
    }
  }

  lemma {:induction false} SumOverPlus(keys: set<string>, f: string -> int, g: string -> int, h: string -> int)
    requires forall k :: k in keys ==> f(k) + g(k) == h(k)
    ensures SumOver(keys, f) + SumOver(keys, g) == SumOver(keys, h)
  {
    if keys != {} {
      var k :| k in keys;
      SumOverRemove(keys, f, k);
      SumOverRemove(keys, g, k);
      SumOverRemove(keys, h, k);
      SumOverPlus(keys - {k}, f, g, h);
    }
  }

  /** What a map of buckets is keyed by. */
  datatype Axis = ByMonth | ByCampaign | ByProduct

  function KeyOn(axis: Axis, r: Row): string {
    match axis
    case ByMonth => r.month
    case ByCampaign => r.campaignId
    case ByProduct => r.product
  }

  function At(axis: Axis, key: string): Slice {
    match axis
    case ByMonth => Month(key)
    case ByCampaign => Campaign(key)
    case ByProduct => Product(key)
  }

  ghost function SumAt(rows: seq<Row>, k: Kind, axis: Axis, keys: set<string>): int {
    SumOver(keys, x => Sum(rows, Of(k, At(axis, x))))
  }

  /** The months, the campaigns, or the postal products share out the whole amount of a kind: nothing
      is counted twice and nothing is left out. */
  lemma {:induction false} SharesAddUp(rows: seq<Row>, k: Kind, axis: Axis, keys: set<string>)
    requires forall r :: r in rows && Is(r, k) ==> KeyOn(axis, r) in keys
    ensures SumAt(rows, k, axis, keys) == Sum(rows, Of(k, All))
  {
    if rows == [] {
      SumOverZero(keys, x => Sum(rows, Of(k, At(axis, x))));
    } else {
      var before, r := rows[..|rows| - 1], rows[|rows| - 1];
      assert r in rows;
      SharesAddUp(before, k, axis, keys);
      SumOverChange(keys, x => Sum(before, Of(k, At(axis, x))), x => Sum(rows, Of(k, At(axis, x))), KeyOn(axis, r));
    }
  }

  lemma {:induction false} EventsAddUp(events: seq<Event>, keys: set<string>)
    requires forall e :: e in events ==> ProductOf(e) in keys
    ensures SumOver(keys, p => EventCost(events, p)) == Ship(events)
  {
    if events == [] {
      SumOverZero(keys, p => EventCost(events, p));
    } else {
      var before, e := events[..|events| - 1], events[|events| - 1];
      assert e in events;
      EventsAddUp(before, keys);
      SumOverChange(keys, p => EventCost(before, p), p => EventCost(events, p), ProductOf(e));
    }
  }

  /** The SEND products share out the paper part of the analog attempts. */
  lemma {:induction false} SendProductsAddUp(rows: seq<Row>, keys: set<string>)
    requires forall r, e :: r in rows && Is(r, Analog) && e in r.events ==> ProductOf(e) in keys
    ensures SumOver(keys, p => Sum(rows, Events(p))) == Sum(rows, Paper(All))
  {
    if rows == [] {
      SumOverZero(keys, p => Sum(rows, Events(p)));
    } else {
      var before, r := rows[..|rows| - 1], rows[|rows| - 1];
      assert r in rows;
      SendProductsAddUp(before, keys);
      if Is(r, Analog) {
        EventsAddUp(r.events, keys);
        SumOverPlus(keys, p => Sum(before, Events(p)), p => EventCost(r.events, p), p => Sum(rows, Events(p)));
      } else {
        SumOverChange(keys, p => Sum(before, Events(p)), p => Sum(rows, Events(p)), "");
      }
    }
  }

  // ------------------------------------------------------------- order does not matter

  lemma {:induction false} Extract(rows: seq<Row>, i: nat, f: Figure)
    requires i < |rows|
    ensures Sum(rows, f) == Sum(rows[..i] + rows[i + 1..], f) + Amount(rows[i], f)
    ensures Count(rows, f) == Count(rows[..i] + rows[i + 1..], f) + Units(rows[i], f)
  {
    var n := |rows| - 1;
    if i == n {
      assert rows[..i] + rows[i + 1..] == rows[..n];
    } else {
      Extract(rows[..n], i, f);
      assert (rows[..i] + rows[i + 1..])[..n - 1] == rows[..n][..i] + rows[..n][i + 1..];
    }
  }

  /** Every figure is the same for any reordering of the attempts. */
  lemma {:induction false} AnyOrder(a: seq<Row>, b: seq<Row>, f: Figure)
    requires multiset(a) == multiset(b)
    ensures Tot(a, f) == Tot(b, f)
  {
    assert |multiset(a)| == |a| && |multiset(b)| == |b|;
    if a != [] {
      var n := |a| - 1;
      assert a[n] in multiset(a);
      var i :| 0 <= i < |b| && b[i] == a[n];
      Extract(b, i, f);
      Without(a, b, i);
      AnyOrder(a[..n], b[..i] + b[i + 1..], f);
    }
  }

  lemma Without(a: seq<Row>, b: seq<Row>, i: nat)
    requires multiset(a) == multiset(b) && a != [] && i < |b| && b[i] == a[|a| - 1]
    ensures multiset(a[..|a| - 1]) == multiset(b[..i] + b[i + 1..])
  {
    TakenOut(a, |a| - 1);
    TakenOut(b, i);
    assert a[..|a| - 1] + a[|a|..] == a[..|a| - 1];
  }

  lemma TakenOut(a: seq<Row>, i: nat)
    requires i < |a|
    ensures multiset(a[..i] + a[i + 1..]) == multiset(a) - multiset{a[i]}
  {
    assert a == a[..i] + ([a[i]] + a[i + 1..]);
  }
}
