/** The order in which the attempts are read shows nowhere in the cost report. */
module CostOrder {
  import opened Text
  import opened CostAnalytics
  import opened CostReport
  import opened CostSavings

  predicate SameAt<V(==)>(a: map<string, V>, b: map<string, V>, key: string) {
    (key in a <==> key in b) && (key in a && key in b ==> a[key] == b[key])
  }

  lemma SameMap<V>(a: map<string, V>, b: map<string, V>)
    requires forall key :: SameAt(a, b, key)
    ensures a == b
  {
    assert forall key :: key in a ==> SameAt(a, b, key);
    assert forall key :: key in b ==> SameAt(a, b, key);
  }

  /** Every figure that is not a number of attempts still waiting for their cost. */
  ghost predicate SameFigures(a: seq<Row>, b: seq<Row>) {
    forall f: Figure :: !f.Waiting? ==> Tot(a, f) == Tot(b, f)
  }

  lemma Reordered(a: seq<Row>, b: seq<Row>)
    requires multiset(a) == multiset(b)
    ensures SameFigures(a, b)
  {
    forall f: Figure ensures Tot(a, f) == Tot(b, f) {
      AnyOrder(a, b, f);
    }
  }

  lemma MapsAgree(a: map<string, Bucket>, b: map<string, Bucket>, rowsA: seq<Row>, rowsB: seq<Row>, k: Kind, axis: Axis)
    requires MapOf(a, rowsA, k, axis) && MapOf(b, rowsB, k, axis) && SameFigures(rowsA, rowsB)
    ensures a == b
  {
    forall key ensures SameAt(a, b, key) {
      var f := Of(k, At(axis, key));
      assert Tot(rowsA, f) == Tot(rowsB, f);
      assert BucketAt(a, key, Tot(rowsA, f)) && BucketAt(b, key, Tot(rowsB, f));
    }
    SameMap(a, b);
  }

  lemma ProductsAgree(a: map<string, Bucket>, b: map<string, Bucket>, rowsA: seq<Row>, rowsB: seq<Row>)
    requires ProductsOf(a, rowsA) && ProductsOf(b, rowsB) && SameFigures(rowsA, rowsB)
    ensures a == b
  {
    forall key ensures SameAt(a, b, key) {
      assert Tot(rowsA, Events(key)) == Tot(rowsB, Events(key));
      assert BucketAt(a, key, Tot(rowsA, Events(key))) && BucketAt(b, key, Tot(rowsB, Events(key)));
    }
    SameMap(a, b);
  }

  lemma MonthsAgree(a: map<string, MonthCosts>, b: map<string, MonthCosts>, rowsA: seq<Row>, rowsB: seq<Row>)
    requires MonthsOf(a, rowsA) && MonthsOf(b, rowsB) && SameFigures(rowsA, rowsB)
    ensures a == b
  {
    forall key ensures SameAt(a, b, key) {
      MonthAgrees(a, b, rowsA, rowsB, key);
    }
    SameMap(a, b);
  }

  lemma MonthAgrees(a: map<string, MonthCosts>, b: map<string, MonthCosts>, rowsA: seq<Row>, rowsB: seq<Row>, key: string)
    requires MonthsOf(a, rowsA) && MonthsOf(b, rowsB) && SameFigures(rowsA, rowsB)
    ensures SameAt(a, b, key)
  {
    assert Tot(rowsA, Of(Any, Month(key))) == Tot(rowsB, Of(Any, Month(key)));
    assert Tot(rowsA, Of(Digital, Month(key))) == Tot(rowsB, Of(Digital, Month(key)));
    assert Tot(rowsA, Of(Analog, Month(key))) == Tot(rowsB, Of(Analog, Month(key)));
    assert Tot(rowsA, Of(Postal, Month(key))) == Tot(rowsB, Of(Postal, Month(key)));
    assert MonthAt(a, rowsA, key) && MonthAt(b, rowsB, key);
  }

  lemma ReferencesAgree(a: map<string, SendReference>, b: map<string, SendReference>, rowsA: seq<Row>, rowsB: seq<Row>)
    requires ReferencesOf(a, rowsA) && ReferencesOf(b, rowsB) && SameFigures(rowsA, rowsB)
    ensures a == b
  {
    forall key ensures SameAt(a, b, key) {
      assert Tot(rowsA, Of(Digital, Campaign(key))) == Tot(rowsB, Of(Digital, Campaign(key)));
      assert Tot(rowsA, Of(Analog, Campaign(key))) == Tot(rowsB, Of(Analog, Campaign(key)));
      assert Tot(rowsA, Paper(Campaign(key))) == Tot(rowsB, Paper(Campaign(key)));
      assert ReferenceAt(a, rowsA, key) && ReferenceAt(b, rowsB, key);
    }
    SameMap(a, b);
  }

  // ------------------------------------------------------------- the figures of the pass

  ghost predicate SameSend(a: Aggregates, b: Aggregates)
    reads a, b
  {
    && a.digital == b.digital && a.analog == b.analog && a.analogCostCents == b.analogCostCents && a.baseFeeCents == b.baseFeeCents
    && a.sendProducts == b.sendProducts && a.sendByCampaign == b.sendByCampaign
  }

  ghost predicate SamePostal(a: Aggregates, b: Aggregates)
    reads a, b
  {
    && a.postal == b.postal && a.domestic == b.domestic && a.foreign == b.foreign
    && a.stampaCents == b.stampaCents && a.postaleCents == b.postaleCents && a.arCents == b.arCents
    && a.postalProducts == b.postalProducts && a.postalByCampaign == b.postalByCampaign
  }

  ghost predicate SamePending(a: Aggregates, b: Aggregates)
    reads a, b
  {
    a.sendPending == b.sendPending && a.postalPending == b.postalPending
  }

  ghost predicate SameWhole(a: Aggregates, b: Aggregates)
    reads a, b
  {
    a.monthly == b.monthly && a.campaigns == b.campaigns
  }

  lemma SendAgrees(a: Aggregates, b: Aggregates, rowsA: seq<Row>, rowsB: seq<Row>)
    requires a.SendFits(rowsA) && b.SendFits(rowsB) && SameFigures(rowsA, rowsB)
    ensures SameSend(a, b)
  {
    assert Tot(rowsA, Of(Digital, All)) == Tot(rowsB, Of(Digital, All));
    assert Tot(rowsA, Of(Analog, All)) == Tot(rowsB, Of(Analog, All));
    assert Tot(rowsA, Paper(All)) == Tot(rowsB, Paper(All));
    ProductsAgree(a.sendProducts, b.sendProducts, rowsA, rowsB);
    ReferencesAgree(a.sendByCampaign, b.sendByCampaign, rowsA, rowsB);
  }

  lemma PostalAgrees(a: Aggregates, b: Aggregates, rowsA: seq<Row>, rowsB: seq<Row>)
    requires a.PostalFits(rowsA) && b.PostalFits(rowsB) && SameFigures(rowsA, rowsB)
    ensures SamePostal(a, b)
  {
    assert Tot(rowsA, Of(Postal, All)) == Tot(rowsB, Of(Postal, All));
    assert Tot(rowsA, Of(Domestic, All)) == Tot(rowsB, Of(Domestic, All));
    assert Tot(rowsA, Of(Foreign, All)) == Tot(rowsB, Of(Foreign, All));
    forall p ensures Sum(rowsA, Component(p)) == Sum(rowsB, Component(p)) {
      assert Tot(rowsA, Component(p)) == Tot(rowsB, Component(p));
    }
    MapsAgree(a.postalProducts, b.postalProducts, rowsA, rowsB, Postal, ByProduct);
    MapsAgree(a.postalByCampaign, b.postalByCampaign, rowsA, rowsB, Postal, ByCampaign);
  }

  lemma WholeAgrees(a: Aggregates, b: Aggregates, rowsA: seq<Row>, rowsB: seq<Row>)
    requires a.WholeFits(rowsA) && b.WholeFits(rowsB) && SameFigures(rowsA, rowsB)
    ensures SameWhole(a, b)
  {
    MapsAgree(a.campaigns, b.campaigns, rowsA, rowsB, Any, ByCampaign);
    MonthsAgree(a.monthly, b.monthly, rowsA, rowsB);
  }

  // ------------------------------------------------------------- the savings

  lemma {:induction false} SavedAppend(all: seq<Row>, a: seq<Row>, b: seq<Row>, fallback: Option<int>, cs: set<string>)
    ensures Saved(all, a + b, fallback, cs) == Saved(all, a, fallback, cs) + Saved(all, b, fallback, cs)
    ensures forall v :: Valued(all, a + b, fallback, cs, v) == Valued(all, a, fallback, cs, v) + Valued(all, b, fallback, cs, v)
  {
    if b == [] {
      assert a + b == a;
    } else {
      var n := |b| - 1;
      assert (a + b)[..|a + b| - 1] == a + b[..n];
      SavedAppend(all, a, b[..n], fallback, cs);
    }
  }

  lemma TakeOne(all: seq<Row>, rows: seq<Row>, i: nat, fallback: Option<int>, cs: set<string>)
    requires i < |rows|
    ensures var rest, one := rows[..i] + rows[i + 1..], [rows[i]];
      && Saved(all, rows, fallback, cs) == Saved(all, rest, fallback, cs) + Saved(all, one, fallback, cs)
      && forall v :: Valued(all, rows, fallback, cs, v) == Valued(all, rest, fallback, cs, v) + Valued(all, one, fallback, cs, v)
  {
    var before, one, after := rows[..i], [rows[i]], rows[i + 1..];
    assert rows == before + (one + after);
    SavedAppend(all, before, one + after, fallback, cs);
    SavedAppend(all, one, after, fallback, cs);
    SavedAppend(all, before, after, fallback, cs);
  }

  /** The digital deliveries may come in any order. */
  lemma {:induction false} SavedAnyOrder(all: seq<Row>, a: seq<Row>, b: seq<Row>, fallback: Option<int>, cs: set<string>)
    requires multiset(a) == multiset(b)
    ensures Saved(all, a, fallback, cs) == Saved(all, b, fallback, cs)
    ensures forall v :: Valued(all, a, fallback, cs, v) == Valued(all, b, fallback, cs, v)
  {
    assert |multiset(a)| == |a| && |multiset(b)| == |b|;
    if a != [] {
      var n := |a| - 1;
      assert a[n] in multiset(a);
      var i :| 0 <= i < |b| && b[i] == a[n];
      TakeOne(all, a, n, fallback, cs);
      TakeOne(all, b, i, fallback, cs);
      Without(a, b, i);
      assert a[..n] + a[n + 1..] == a[..n];
      SavedAnyOrder(all, a[..n], b[..i] + b[i + 1..], fallback, cs);
    }
  }

  /** So may the attempts that say what each one avoids. */
  lemma {:induction false} SameReference(allA: seq<Row>, allB: seq<Row>, rows: seq<Row>, fallback: Option<int>, cs: set<string>)
    requires SameFigures(allA, allB)
    ensures Saved(allA, rows, fallback, cs) == Saved(allB, rows, fallback, cs)
    ensures forall v :: Valued(allA, rows, fallback, cs, v) == Valued(allB, rows, fallback, cs, v)
  {
    if rows != [] {
      var c := rows[|rows| - 1].campaignId;
      SameReference(allA, allB, rows[..|rows| - 1], fallback, cs);
      assert Tot(allA, Of(Analog, Campaign(c))) == Tot(allB, Of(Analog, Campaign(c)));
      assert Tot(allA, Paper(Campaign(c))) == Tot(allB, Paper(Campaign(c)));
    }
  }

  lemma {:induction false} PostalSavedAgrees(a: seq<Row>, b: seq<Row>, entries: seq<(string, nat)>)
    requires SameFigures(a, b)
    ensures PostalSaved(a, entries) == PostalSaved(b, entries)
  {
    if entries != [] {
      var c := entries[|entries| - 1].0;
      PostalSavedAgrees(a, b, entries[..|entries| - 1]);
      LetterAgrees(a, b, c);
    }
  }

  lemma LetterAgrees(a: seq<Row>, b: seq<Row>, c: string)
    requires SameFigures(a, b)
    ensures Letter(a, c) == Letter(b, c)
  {
    assert Tot(a, Of(Postal, Campaign(c))) == Tot(b, Of(Postal, Campaign(c)));
    assert Tot(a, Of(Postal, All)) == Tot(b, Of(Postal, All));
  }

  /** The digital deliveries are worth the same, in each way of valuing them. */
  ghost predicate SameWorth(all: seq<Row>, a: seq<Row>, b: seq<Row>, fallback: Option<int>, cs: set<string>) {
    && Saved(all, a, fallback, cs) == Saved(all, b, fallback, cs)
    && forall v :: Valued(all, a, fallback, cs, v) == Valued(all, b, fallback, cs, v)
  }

  lemma SavingsAgree(da: Derived, db: Derived, rowsA: seq<Row>, rowsB: seq<Row>, entries: seq<(string, nat)>, fallback: Option<int>,
      cs: set<string>)
    requires SavingsFit(da, rowsA, entries, fallback, cs) && SavingsFit(db, rowsB, entries, fallback, cs)
    requires SameFigures(rowsA, rowsB) && SameWorth(rowsA, rowsA, rowsB, fallback, cs)
    ensures da.sendCents == db.sendCents && da.sendEstimated == db.sendEstimated && da.sendNotEstimable == db.sendNotEstimable
    ensures da.postalCents == db.postalCents && da.postalDiverted == db.postalDiverted && da.postalNotEstimable == db.postalNotEstimable
  {
    SameReference(rowsA, rowsB, rowsB, fallback, cs);
    PostalSavedAgrees(rowsA, rowsB, entries);
    assert Tot(rowsA, Of(Postal, All)) == Tot(rowsB, Of(Postal, All));
  }

  // ------------------------------------------------------------- the whole report

  lemma SameReport(a: Aggregates, b: Aggregates, da: Derived, db: Derived, rowsA: seq<Row>, rowsB: seq<Row>,
      entries: seq<(string, nat)>, fallback: Option<int>, le: (string, string) -> bool)
    requires TotalOrder(le) && SameFigures(rowsA, rowsB) && SameWorth(rowsA, rowsA, rowsB, fallback, a.sendByCampaign.Keys)
    requires Describes(a, da, rowsA, entries, fallback, le) && Describes(b, db, rowsB, entries, fallback, le)
    ensures SameSend(a, b) && SamePostal(a, b) && SameWhole(a, b) && da == db
  {
    SendAgrees(a, b, rowsA, rowsB);
    PostalAgrees(a, b, rowsA, rowsB);
    WholeAgrees(a, b, rowsA, rowsB);
    assert Tot(rowsA, Of(Any, All)) == Tot(rowsB, Of(Any, All));
    SavingsAgree(da, db, rowsA, rowsB, entries, fallback, a.sendByCampaign.Keys);
    OneSortedList(da.sendProducts, db.sendProducts, a.sendProducts, a.sendProducts.Keys, le);
    OneSortedList(da.postalProducts, db.postalProducts, a.postalProducts, a.postalProducts.Keys, le);
  }

  /** Two reports on the same attempts, read in different orders, are the same report: every total, bucket,
      map, list, average and saving. */
  lemma OrderDoesNotShow(a: Aggregates, b: Aggregates, da: Derived, db: Derived, rowsA: seq<Row>, rowsB: seq<Row>,
      entries: seq<(string, nat)>, fallback: Option<int>, le: (string, string) -> bool)
    requires TotalOrder(le) && multiset(rowsA) == multiset(rowsB)
    requires Describes(a, da, rowsA, entries, fallback, le) && Describes(b, db, rowsB, entries, fallback, le)
    ensures SameSend(a, b) && SamePostal(a, b) && SameWhole(a, b) && SamePending(a, b) && da == db
  {
    Reordered(rowsA, rowsB);
    SavedAnyOrder(rowsA, rowsA, rowsB, fallback, a.sendByCampaign.Keys);
    AnyOrder(rowsA, rowsB, Waiting(true));
    AnyOrder(rowsA, rowsB, Waiting(false));
    SameReport(a, b, da, db, rowsA, rowsB, entries, fallback, le);
  }
}
