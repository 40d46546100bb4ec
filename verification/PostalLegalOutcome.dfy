/** The legal outcome of a POSTAL notification, as the TypeScript rule decides it and as the SQL CASE
    of counts, filters and sorting does, with NULLs taken the way SQL takes them. */
module PostalLegalOutcome {
  import opened Text

  datatype Outcome = Delivered | NotDelivered | InProgress | NoLegalValue | NoAr | Unclassified

  const LEGAL_DELIVERED_STATUSES: seq<string> := [
    "Consegnato", "Consegnato a Domicilio", "Consegnato a Sportello", "Consegnato in Digitale", "Compiuta Giacenza",
    "Invio Rifiutato"]

  const LEGAL_NOT_DELIVERED_STATUSES: seq<string> := [
    "Destinatario deceduto", "Destinatario irreperibile", "Destinatario sconosciuto", "Destinatario trasferito",
    "Indirizzo errato o inesatto", "Indirizzo insufficiente", "Indirizzo sconosciuto", "Smarrito", "Inesitato"]

  /** The last attempt; None is a NULL column. Dates are instants. */
  datatype Attempt = Attempt(
    status: string, postalStatus: Option<string>, postalDeliveryStatus: Option<string>, postalDeliveryDate: Option<nat>,
    sentAt: Option<nat>)

  datatype Poste = Poste(status: string, outcomeAt: Option<nat>)

  datatype Input = Input(diverted: bool, arTracking: bool, attempt: Option<Attempt>, poste: Option<Poste>)

  datatype Result = Result(outcome: Outcome, at: Option<nat>)

  predicate Among(v: Option<string>, values: seq<string>) {
    v.Some? && v.value != "" && v.value in values
  }

  predicate PosteDelivered(i: Input) {
    i.poste.Some? && i.poste.value.status == "delivered"
  }

  /** postalLegalOutcome, without the texts of the reasons. */
  function LegalOutcome(i: Input): Result {
    if i.diverted then
      if i.attempt.Some? && i.attempt.value.status == "success" then Result(Delivered, i.attempt.value.sentAt)
      else if i.attempt.Some? && i.attempt.value.status == "failed" then Result(NotDelivered, None)
      else Result(InProgress, None)
    else if i.attempt.Some? && i.attempt.value.postalStatus == Some("AppIoSostituito") then Result(NoLegalValue, None)
    else if !i.arTracking then Result(NoAr, None)
    else if i.attempt.None? then Result(InProgress, None)
    else
      var a := i.attempt.value;
      if a.status == "failed" then Result(NotDelivered, None)
      else if a.postalStatus == Some("Errore") then Result(NotDelivered, None)
      else if Among(a.postalDeliveryStatus, LEGAL_DELIVERED_STATUSES) then Result(Delivered, a.postalDeliveryDate)
      else if a.postalStatus == Some("Consegnato") then Result(Delivered, a.postalDeliveryDate)
      else if PosteDelivered(i) then Result(Delivered, i.poste.value.outcomeAt)
      else if Among(a.postalDeliveryStatus, LEGAL_NOT_DELIVERED_STATUSES) then Result(NotDelivered, None)
      else if a.postalStatus == Some("Eliminato") then Result(Unclassified, None)
      else Result(InProgress, None)
  }

  // ------------------------------------------------------------- when each outcome is given

  /** Nothing decided before the statuses are looked at: sent by post with AR, and the sending did not fail. */
  predicate Posted(i: Input) {
    && !i.diverted && i.arTracking && i.attempt.Some? && i.attempt.value.status != "failed"
    && i.attempt.value.postalStatus != Some("AppIoSostituito") && i.attempt.value.postalStatus != Some("Errore")
  }

  /** A delivery status that has legal value. */
  predicate SaysDelivered(status: string) {
    status in {"Consegnato", "Consegnato a Domicilio", "Consegnato a Sportello", "Consegnato in Digitale", "Compiuta Giacenza",
      "Invio Rifiutato"}
  }

  predicate SaysNotDelivered(status: string) {
    status in {"Destinatario deceduto", "Destinatario irreperibile", "Destinatario sconosciuto", "Destinatario trasferito",
      "Indirizzo errato o inesatto", "Indirizzo insufficiente", "Indirizzo sconosciuto", "Smarrito", "Inesitato"}
  }

  lemma StatusLists(status: string)
    ensures Among(Some(status), LEGAL_DELIVERED_STATUSES) <==> SaysDelivered(status)
    ensures Among(Some(status), LEGAL_NOT_DELIVERED_STATUSES) <==> SaysNotDelivered(status)
    ensures !(SaysDelivered(status) && SaysNotDelivered(status))
  {
  }

  /** Delivered exactly by a digital delivery that succeeded, or for a letter by one of the statuses with legal
      value, by GlobalCom's own word or by that of Poste; the date is that of whoever says so. */
  lemma DeliveredWhen(i: Input)
    ensures LegalOutcome(i).outcome.Delivered? <==>
      if i.diverted then i.attempt.Some? && i.attempt.value.status == "success"
      else
        && Posted(i)
        && var a := i.attempt.value;
           || (a.postalDeliveryStatus.Some? && SaysDelivered(a.postalDeliveryStatus.value))
           || a.postalStatus == Some("Consegnato")
           || (i.poste.Some? && i.poste.value.status == "delivered")
    ensures LegalOutcome(i).outcome.Delivered? ==>
      var a := i.attempt.value;
      LegalOutcome(i).at ==
        if i.diverted then a.sentAt
        else if a.postalStatus == Some("Consegnato") || (a.postalDeliveryStatus.Some? && SaysDelivered(a.postalDeliveryStatus.value))
          then a.postalDeliveryDate
        else i.poste.value.outcomeAt
    ensures !LegalOutcome(i).outcome.Delivered? ==> LegalOutcome(i).at == None
  {
    Statuses(i);
  }

  lemma Statuses(i: Input)
    ensures i.attempt.Some? && i.attempt.value.postalDeliveryStatus.Some? ==>
      var s := i.attempt.value.postalDeliveryStatus;
      && (Among(s, LEGAL_DELIVERED_STATUSES) <==> SaysDelivered(s.value))
      && (Among(s, LEGAL_NOT_DELIVERED_STATUSES) <==> SaysNotDelivered(s.value))
  {
    if i.attempt.Some? && i.attempt.value.postalDeliveryStatus.Some? {
      StatusLists(i.attempt.value.postalDeliveryStatus.value);
    }
  }

  /** Not delivered exactly by a sending that failed, an error of GlobalCom, or one of the reasons listed where
      nobody says delivered. */
  lemma NotDeliveredWhen(i: Input)
    ensures LegalOutcome(i).outcome.NotDelivered? <==>
      if i.diverted then i.attempt.Some? && i.attempt.value.status == "failed"
      else
        && i.arTracking && i.attempt.Some? && i.attempt.value.postalStatus != Some("AppIoSostituito")
        && var a := i.attempt.value;
           || a.status == "failed" || a.postalStatus == Some("Errore")
           || (a.postalDeliveryStatus.Some? && SaysNotDelivered(a.postalDeliveryStatus.value) && !LegalOutcome(i).outcome.Delivered?)
  {
    Statuses(i);
  }

  /** The other outcomes: replaced by App IO, without AR, deleted with nothing better known. */
  lemma OtherwiseWhen(i: Input)
    ensures LegalOutcome(i).outcome.NoLegalValue? <==>
      !i.diverted && i.attempt.Some? && i.attempt.value.postalStatus == Some("AppIoSostituito")
    ensures LegalOutcome(i).outcome.NoAr? <==> !i.diverted && !i.arTracking && !LegalOutcome(i).outcome.NoLegalValue?
    ensures LegalOutcome(i).outcome.Unclassified? <==>
      && Posted(i) && i.attempt.value.postalStatus == Some("Eliminato")
      && !LegalOutcome(i).outcome.Delivered? && !LegalOutcome(i).outcome.NotDelivered?
  {
  }

  // ------------------------------------------------------------- SQL

  datatype Column = LaId | LaStatus | LaPostalStatus | LaPostalDeliveryStatus | PptStatus

  /** Conditions; `Flag` is COALESCE((r.inad_check->>'diverted')::boolean, false). */
  datatype Condition =
    | Flag
    | Equals(column: Column, text: string)
    | InList(column: Column, texts: seq<string>)
    | IsNull(column: Column)
    | And(left: Condition, right: Condition)

  datatype When = When(condition: Condition, result: Outcome)

  datatype Case = Case(whens: seq<When>, otherwise: Outcome)

  /** A row of the join: the flag and the columns, NULL being None. */
  datatype SqlRow = SqlRow(diverted: Option<bool>, columns: map<Column, string>)

  function Value(row: SqlRow, c: Column): Option<string> {
    if c in row.columns then Some(row.columns[c]) else None
  }

  /** Three-valued AND: false wins over unknown. */
  function AndSql(a: Option<bool>, b: Option<bool>): Option<bool> {
    if a == Some(false) || b == Some(false) then Some(false)
    else if a == Some(true) && b == Some(true) then Some(true)
    else None
  }

  /** A comparison with NULL is unknown. */
  function Eval(row: SqlRow, c: Condition): Option<bool> {
    match c
    case Flag => Some(row.diverted == Some(true))
    case Equals(column, text) => if Value(row, column).Some? then Some(Value(row, column).value == text) else None
    case InList(column, texts) => if Value(row, column).Some? then Some(Value(row, column).value in texts) else None
    case IsNull(column) => Some(Value(row, column).None?)
    case And(left, right) => AndSql(Eval(row, left), Eval(row, right))
  }

  /** The first WHEN that is true; unknown is not true. */
  function EvalCase(row: SqlRow, whens: seq<When>, otherwise: Outcome): Outcome {
    if whens == [] then otherwise
    else if Eval(row, whens[0].condition) == Some(true) then whens[0].result
    else EvalCase(row, whens[1..], otherwise)
  }

  function Head(): seq<When> {
    [When(And(Flag, Equals(LaStatus, "success")), Delivered),
     When(And(Flag, Equals(LaStatus, "failed")), NotDelivered),
     When(Flag, InProgress),
     When(Equals(LaPostalStatus, "AppIoSostituito"), NoLegalValue)]
  }

  function Tail(): seq<When> {
    [When(IsNull(LaId), InProgress),
     When(Equals(LaStatus, "failed"), NotDelivered),
     When(Equals(LaPostalStatus, "Errore"), NotDelivered),
     When(InList(LaPostalDeliveryStatus, LEGAL_DELIVERED_STATUSES), Delivered),
     When(Equals(LaPostalStatus, "Consegnato"), Delivered),
     When(Equals(PptStatus, "delivered"), Delivered),
     When(InList(LaPostalDeliveryStatus, LEGAL_NOT_DELIVERED_STATUSES), NotDelivered),
     When(Equals(LaPostalStatus, "Eliminato"), Unclassified)]
  }

  /** postalLegalOutcomeCaseSql. */
  function CaseSql(arTracking: bool): Case {
    if arTracking then Case(Head() + Tail(), InProgress) else Case(Head(), NoAr)
  }

  function Put(m: map<Column, string>, c: Column, v: Option<string>): map<Column, string> {
    if v.Some? then m[c := v.value] else m
  }

  /** The row that the lateral joins give for a recipient: no attempt leaves every column NULL, and the
      Poste row is joined on the attempt. The flag is what inad_check holds, NULL when it is absent. */
  function Joined(i: Input, id: string, flag: Option<bool>): SqlRow {
    SqlRow(flag,
      if i.attempt.None? then map[]
      else
        var a := i.attempt.value;
        Put(Put(Put(map[LaId := id, LaStatus := a.status], LaPostalStatus, a.postalStatus),
          LaPostalDeliveryStatus, a.postalDeliveryStatus), PptStatus, if i.poste.Some? then Some(i.poste.value.status) else None))
  }

  lemma {:induction false} EvalCaseConcat(row: SqlRow, a: seq<When>, b: seq<When>, otherwise: Outcome)
    ensures EvalCase(row, a + b, otherwise) == EvalCase(row, a, EvalCase(row, b, otherwise))
  {
    if a == [] {
      assert a + b == b;
    } else {
      assert (a + b)[1..] == a[1..] + b;
      EvalCaseConcat(row, a[1..], b, otherwise);
    }
  }

  /** From the k-th WHEN on. */
  function From(row: SqlRow, whens: seq<When>, otherwise: Outcome, k: nat): Outcome
    requires k <= |whens|
  {
    EvalCase(row, whens[k..], otherwise)
  }

  lemma Next(row: SqlRow, whens: seq<When>, otherwise: Outcome, k: nat)
    requires k < |whens|
    ensures From(row, whens, otherwise, k)
      == if Eval(row, whens[k].condition) == Some(true) then whens[k].result else From(row, whens, otherwise, k + 1)
  {
  }

  lemma HeadIs(row: SqlRow, otherwise: Outcome)
    ensures EvalCase(row, Head(), otherwise) ==
      if row.diverted == Some(true) then
        if Value(row, LaStatus) == Some("success") then Delivered
        else if Value(row, LaStatus) == Some("failed") then NotDelivered
        else InProgress
      else if Value(row, LaPostalStatus) == Some("AppIoSostituito") then NoLegalValue
      else otherwise
  {
    var h := Head();
    assert h[0..] == h;
    Next(row, h, otherwise, 0);
    Next(row, h, otherwise, 1);
    Next(row, h, otherwise, 2);
    Next(row, h, otherwise, 3);
  }

  lemma TailIs(row: SqlRow)
    ensures EvalCase(row, Tail(), InProgress) ==
      var (ps, ds) := (Value(row, LaPostalStatus), Value(row, LaPostalDeliveryStatus));
      if Value(row, LaId).None? then InProgress
      else if Value(row, LaStatus) == Some("failed") then NotDelivered
      else if ps == Some("Errore") then NotDelivered
      else if ds.Some? && ds.value in LEGAL_DELIVERED_STATUSES then Delivered
      else if ps == Some("Consegnato") then Delivered
      else if Value(row, PptStatus) == Some("delivered") then Delivered
      else if ds.Some? && ds.value in LEGAL_NOT_DELIVERED_STATUSES then NotDelivered
      else if ps == Some("Eliminato") then Unclassified
      else InProgress
  {
    var t := Tail();
    assert t[0..] == t;
    TailStart(row);
    Next(row, t, InProgress, 4);
    Next(row, t, InProgress, 5);
    Next(row, t, InProgress, 6);
    Next(row, t, InProgress, 7);
  }

  lemma TailStart(row: SqlRow)
    ensures From(row, Tail(), InProgress, 0) ==
      var ds := Value(row, LaPostalDeliveryStatus);
      if Value(row, LaId).None? then InProgress
      else if Value(row, LaStatus) == Some("failed") then NotDelivered
      else if Value(row, LaPostalStatus) == Some("Errore") then NotDelivered
      else if ds.Some? && ds.value in LEGAL_DELIVERED_STATUSES then Delivered
      else From(row, Tail(), InProgress, 4)
  {
    var t := Tail();
    Next(row, t, InProgress, 0);
    Next(row, t, InProgress, 1);
    Next(row, t, InProgress, 2);
    Next(row, t, InProgress, 3);
  }

  /** The two empty texts: `ds &&` of TypeScript never meets an empty status of the tables. */
  lemma NoEmptyStatus()
    ensures "" !in LEGAL_DELIVERED_STATUSES && "" !in LEGAL_NOT_DELIVERED_STATUSES
  {
  }

  /** The TypeScript rule and the SQL CASE agree for every attempt or none, every Poste row, and a flag stored as
      true, stored as false or not stored. */
  lemma CaseAgrees(i: Input, id: string, flag: Option<bool>)
    requires i.diverted == (flag == Some(true))
    ensures var c := CaseSql(i.arTracking); EvalCase(Joined(i, id, flag), c.whens, c.otherwise) == LegalOutcome(i).outcome
  {
    var row := Joined(i, id, flag);
    EvalCaseConcat(row, Head(), Tail(), InProgress);
    HeadIs(row, NoAr);
    HeadIs(row, EvalCase(row, Tail(), InProgress));
    TailIs(row);
    NoEmptyStatus();
    JoinedColumns(i, id, flag);
  }

  lemma JoinedColumns(i: Input, id: string, flag: Option<bool>)
    ensures var row := Joined(i, id, flag);
      if i.attempt.None? then forall c :: Value(row, c).None?
      else
        && Value(row, LaId) == Some(id) && Value(row, LaStatus) == Some(i.attempt.value.status)
        && Value(row, LaPostalStatus) == i.attempt.value.postalStatus
        && Value(row, LaPostalDeliveryStatus) == i.attempt.value.postalDeliveryStatus
        && Value(row, PptStatus) == if i.poste.Some? then Some(i.poste.value.status) else None
  {
  }

  // ------------------------------------------------------------- Poste only promotes

  /** A "delivered" of Poste never removes an outcome: a result already delivered stays exactly as it is,
      date included, and any other either stays or becomes delivered. */
  lemma PosteOnlyPromotes(i: Input, p: Poste)
    requires p.status == "delivered" && !PosteDelivered(i)
    ensures var before, after := LegalOutcome(i), LegalOutcome(i.(poste := Some(p)));
      (before.outcome.Delivered? ==> after == before) && (after == before || after == Result(Delivered, p.outcomeAt))
  {
  }

  /** And it promotes exactly the outcomes that rest on GlobalCom's word alone: still in progress, not
      delivered by one of the listed reasons, or deleted; never a failed sending, a GlobalCom error, a
      diverted recipient, a sending without AR or one replaced by App IO. */
  lemma PostePromotesWhen(i: Input, p: Poste)
    requires p.status == "delivered" && !PosteDelivered(i)
    ensures LegalOutcome(i.(poste := Some(p))) != LegalOutcome(i) <==>
      && !i.diverted && i.arTracking && i.attempt.Some? && i.attempt.value.status != "failed"
      && i.attempt.value.postalStatus != Some("AppIoSostituito") && i.attempt.value.postalStatus != Some("Errore")
      && !LegalOutcome(i).outcome.Delivered?
  {
  }

  /** A Poste answer other than "delivered" never counts. */
  lemma OtherPosteAnswers(i: Input, p: Poste)
    requires p.status != "delivered"
    ensures LegalOutcome(i.(poste := Some(p))) == LegalOutcome(i.(poste := None))
  {
  }
}
