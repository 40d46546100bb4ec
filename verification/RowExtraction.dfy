/** One row of the enriched file: the base columns of a trace record, completed by what the
    PDF extractor answered and corrected by the content rules. */
module RowExtraction {
  import opened Text
  import opened EnrichedCsv
  import opened AddressOverrides

  datatype Address = Address(indirizzo: string, cap: string, comune: string, provincia: string, statoEstero: string)

  datatype MaggioliRecord = MaggioliRecord(
    codiceFiscale: string, nominativo: string, tipo: string, pec: string,
    numeroProvvedimento: string, dataEmissione: string, oggetto: string, pdfFilename: string,
    csvAddress: Option<Address>, csvNumeroAvviso: string, csvNumeroAvvisoAlt: string, ocrNotifica: string)

  datatype Payment = Payment(numeroAvviso: string, numeroAvvisoAlternativo: string, importo: string, scadenza: string)

  datatype ExtractResult = ExtractResult(
    warnings: seq<string>, address: Option<Address>, totale: Option<Payment>, rate: seq<Payment>,
    fiscalCode: Option<string>)

  /** What happens to the PDF of one record: absent from every ZIP, extraction failed, or read. */
  datatype Answer = PdfMissing | ExtractionFailed(message: string) | Extracted(result: ExtractResult)

  datatype Warning = Warning(row: nat, pdf: string, message: string)

  datatype Extraction = Extraction(row: Row, warnings: seq<Warning>, rateCount: nat)

  /** The lookups the content rules rely on: country names, long municipality names, format checks. */
  datatype Rules = Rules(
    matchCountry: string -> Option<string>, abbreviate: string -> string,
    validCap: string -> bool, validTaxId: string -> bool)

  function Or(a: string, b: string): string {
    if a != "" then a else b
  }

  function AddressOf(rec: MaggioliRecord): Address {
    rec.csvAddress.GetOr(Address("", "", "", "", ""))
  }

  function BaseRow(rec: MaggioliRecord): Row {
    var a := AddressOf(rec);
    map["codice_fiscale" := rec.codiceFiscale, "nominativo" := rec.nominativo, "tipo" := rec.tipo,
      "pec" := rec.pec, "indirizzo" := a.indirizzo, "cap" := a.cap, "comune" := a.comune,
      "provincia" := a.provincia, "stato_estero" := a.statoEstero, "allegato" := rec.pdfFilename,
      "numero_avviso" := rec.csvNumeroAvviso, "numero_avviso_alternativo" := rec.csvNumeroAvvisoAlt,
      "importo" := "", "scadenza" := "", "numero_provvedimento" := rec.numeroProvvedimento,
      "data_emissione" := rec.dataEmissione, "oggetto" := rec.oggetto,
      "external_id" := Or(rec.ocrNotifica, rec.numeroProvvedimento)]
  }

  function WithAddress(row: Row, a: Address): Row {
    row["indirizzo" := a.indirizzo]["cap" := a.cap]["comune" := a.comune]["provincia" := a.provincia]
       ["stato_estero" := a.statoEstero]
  }

  function WithTotal(row: Row, rec: MaggioliRecord, p: Payment): Row {
    row["numero_avviso" := Or(p.numeroAvviso, rec.csvNumeroAvviso)]
       ["numero_avviso_alternativo" := Or(p.numeroAvvisoAlternativo, rec.csvNumeroAvvisoAlt)]
       ["importo" := p.importo]["scadenza" := p.scadenza]
  }

  /** Instalments 1 to |rate| written under their own columns. */
  function WithRates(row: Row, rate: seq<Payment>): Row {
    if rate == [] then row
    else
      var n := |rate|;
      var p := rate[n - 1];
      RateWritten(WithRates(row, rate[..n - 1]), n, p)
  }

  function Read(rec: MaggioliRecord, r: ExtractResult): Row {
    WithRates(Paid(rec, r), r.rate)
  }

  /** Address and payment as read, before the instalments. */
  function Paid(rec: MaggioliRecord, r: ExtractResult): Row {
    var row := BaseRow(rec);
    var located := if rec.csvAddress == None && r.address.Some? then WithAddress(row, r.address.value) else row;
    if r.totale.Some? then WithTotal(located, rec, r.totale.value) else located
  }

  function Numbered(messages: seq<string>, rowNum: nat, pdf: string): (ws: seq<Warning>)
    ensures forall w :: w in ws ==> w.row == rowNum && w.pdf == pdf
    ensures |ws| == |messages| && forall k :: 0 <= k < |ws| ==> ws[k].message == messages[k]
  {
    if messages == [] then [] else [Warning(rowNum, pdf, messages[0])] + Numbered(messages[1..], rowNum, pdf)
  }

  // ------------------------------------------------------------- content rules

  function IsForeign(rules: Rules, row: Row): bool {
    var paese := Trim(Cell(row, "stato_estero"));
    var c := if paese == "" then None else rules.matchCountry(paese);
    c.Some? && c.value != "" && c.value != "Italia"
  }

  function CountryMessages(rules: Rules, row: Row): seq<string> {
    var paese := Trim(Cell(row, "stato_estero"));
    if paese != "" && rules.matchCountry(paese).GetOr("") == ""
    then ["Paese \"" + paese + "\" non riconosciuto"] else []
  }

  function FixCity(rules: Rules, row: Row): Row {
    var comune := Trim(Cell(row, "comune"));
    if |comune| <= 30 then row
    else if |rules.abbreviate(comune)| <= 30 then row["comune" := rules.abbreviate(comune)]
    else row["comune" := comune[..30]]
  }

  function CityMessages(rules: Rules, row: Row): seq<string> {
    var comune := Trim(Cell(row, "comune"));
    if comune == "" then ["Città mancante"]
    else if |comune| > 30 && |rules.abbreviate(comune)| > 30
    then ["Città troppo lunga (" + Decimal(|comune|) + " caratteri, max 30)"]
    else []
  }

  function AreaMessages(rules: Rules, row: Row): seq<string> {
    if IsForeign(rules, row) then []
    else
      (if Trim(Cell(row, "provincia")) == "" then ["Provincia mancante"] else [])
      + (if Trim(Cell(row, "cap")) != "" && !rules.validCap(Cell(row, "cap"))
         then ["CAP non valido (richieste 5 cifre)"] else [])
  }

  /** The tax id found in the PDF, when it should replace an invalid one of the trace. */
  function TaxIdFromPdf(rules: Rules, row: Row, found: Option<string>): Option<string> {
    var csv := Trim(Cell(row, "codice_fiscale"));
    var pdf := Trim(found.GetOr(""));
    if csv != "" && !rules.validTaxId(csv) && pdf != "" && rules.validTaxId(pdf) then Some(pdf) else None
  }

  const TAX_ID: string := "Codice Fiscale/Partita IVA"

  function TaxIdMessages(rules: Rules, row: Row, found: Option<string>): seq<string> {
    var csv := Trim(Cell(row, "codice_fiscale"));
    if csv == "" then [TAX_ID + " mancante"]
    else if rules.validTaxId(csv) then []
    else if TaxIdFromPdf(rules, row, found).Some?
    then [TAX_ID + (" CSV non valido (\"" + csv + "\") — sostituito con valore estratto dal PDF")]
    else [TAX_ID + (" non valido (\"" + csv + "\")")]
  }

  function Validated(rules: Rules, row: Row, found: Option<string>): Row {
    var fixed := FixCity(rules, row);
    var taxId := TaxIdFromPdf(rules, row, found);
    if taxId.Some? then fixed["codice_fiscale" := taxId.value] else fixed
  }

  function ContentMessages(rules: Rules, row: Row, found: Option<string>): seq<string> {
    CountryMessages(rules, row) + CityMessages(rules, row) + AreaMessages(rules, row)
    + TaxIdMessages(rules, row, found)
  }

  // ------------------------------------------------------------- one row

  function AnswerMessages(answer: Answer): seq<string> {
    match answer
    case PdfMissing => ["PDF non trovato nel ZIP"]
    case ExtractionFailed(m) => ["Estrazione fallita: " + m]
    case Extracted(r) => r.warnings
  }

  /** extractRowData: a row always results, whatever happened to the PDF. */
  function Extract(rules: Rules, rec: MaggioliRecord, rowNum: nat, answer: Answer): Extraction {
    var row := if answer.Extracted? then Read(rec, answer.result) else BaseRow(rec);
    var messages := AnswerMessages(answer);
    var found := if answer.Extracted? then answer.result.fiscalCode else None;
    Extraction(
      Validated(rules, row, found),
      Numbered(messages, rowNum, rec.pdfFilename)
        + Numbered(ContentMessages(rules, row, found), rowNum, rec.pdfFilename),
      if answer.Extracted? then |answer.result.rate| else 0)
  }

  /** Every warning of an extraction carries its row number. */
  lemma ExtractNumbers(rules: Rules, rec: MaggioliRecord, rowNum: nat, answer: Answer)
    ensures forall w :: w in Extract(rules, rec, rowNum, answer).warnings ==> w.row == rowNum
  {
  }

  ghost predicate KnownColumns(row: Row, maxRate: nat) {
    forall k :: k in row ==> k in BASE_CSV_HEADERS || IsRateKey(k, maxRate)
  }

  lemma RateFieldKnown(row: Row, n: nat, f: string, v: string)
    requires n > 0 && IsRateField(f) && KnownColumns(row, n)
    ensures KnownColumns(row[RateKey(n, f) := v], n)
    ensures Get(row[RateKey(n, f) := v], "allegato") == Get(row, "allegato")
  {
  }

  lemma {:induction false} WithRatesColumns(row: Row, rate: seq<Payment>)
    requires KnownColumns(row, 0)
    ensures KnownColumns(WithRates(row, rate), |rate|)
    ensures Get(WithRates(row, rate), "allegato") == Get(row, "allegato")
  {
    var n := |rate|;
    if n > 0 {
      WithRatesColumns(row, rate[..n - 1]);
      var p := rate[n - 1];
      var r0 := WithRates(row, rate[..n - 1]);
      assert KnownColumns(r0, n);
      var r1 := r0[RateKey(n, "_numero_avviso") := p.numeroAvviso];
      RateFieldKnown(r0, n, "_numero_avviso", p.numeroAvviso);
      RateFieldKnown(r1, n, "_importo", p.importo);
      RateFieldKnown(r1[RateKey(n, "_importo") := p.importo], n, "_scadenza", p.scadenza);
    }
  }

  lemma BaseRowColumns(rec: MaggioliRecord)
    ensures KnownColumns(BaseRow(rec), 0) && Get(BaseRow(rec), "allegato") == Some(rec.pdfFilename)
  {
  }

  lemma AddressColumnsKnown(row: Row, a: Address, rec: MaggioliRecord, p: Payment)
    requires KnownColumns(row, 0)
    ensures KnownColumns(WithAddress(row, a), 0) && Get(WithAddress(row, a), "allegato") == Get(row, "allegato")
    ensures KnownColumns(WithTotal(row, rec, p), 0)
    ensures Get(WithTotal(row, rec, p), "allegato") == Get(row, "allegato")
  {
  }

  /** An extracted row keeps the record's PDF name and fills only columns the file will print. */
  lemma ExtractColumns(rules: Rules, rec: MaggioliRecord, rowNum: nat, answer: Answer)
    ensures var e := Extract(rules, rec, rowNum, answer);
      KeyOf(e.row) == rec.pdfFilename
      && forall k :: k in e.row ==> k in Headers(e.rateCount)
  {
    var e := Extract(rules, rec, rowNum, answer);
    var base := BaseRow(rec);
    BaseRowColumns(rec);
    var none := Payment("", "", "", "");
    if answer.Extracted? {
      var r := answer.result;
      var row1 := if rec.csvAddress == None && r.address.Some? then WithAddress(base, r.address.value) else base;
      AddressColumnsKnown(base, r.address.GetOr(Address("", "", "", "", "")), rec, none);
      AddressColumnsKnown(row1, AddressOf(rec), rec, r.totale.GetOr(none));
      var row2 := if r.totale.Some? then WithTotal(row1, rec, r.totale.value) else row1;
      WithRatesColumns(row2, r.rate);
    }
    ValidatedColumns(rules, if answer.Extracted? then Read(rec, answer.result) else base,
      if answer.Extracted? then answer.result.fiscalCode else None, e.rateCount);
    forall k | k in e.row ensures k in Headers(e.rateCount) {
      HeadersAre(e.rateCount, k);
    }
  }

  lemma ValidatedColumns(rules: Rules, row: Row, found: Option<string>, n: nat)
    requires KnownColumns(row, n) && "allegato" in row
    ensures KnownColumns(Validated(rules, row, found), n)
    ensures Get(Validated(rules, row, found), "allegato") == Get(row, "allegato")
  {
  }

  // ------------------------------------------------------------- what each column holds

  predicate Holds(row: Row, h: string, v: string) {
    Get(row, h) == Some(v)
  }

  /** The columns of the record that nothing changes. */
  predicate HoldsRecord(row: Row, rec: MaggioliRecord) {
    && Holds(row, "nominativo", rec.nominativo) && Holds(row, "tipo", rec.tipo) && Holds(row, "pec", rec.pec)
    && Holds(row, "allegato", rec.pdfFilename) && Holds(row, "numero_provvedimento", rec.numeroProvvedimento)
    && Holds(row, "data_emissione", rec.dataEmissione) && Holds(row, "oggetto", rec.oggetto)
    && Holds(row, "external_id", if rec.ocrNotifica != "" then rec.ocrNotifica else rec.numeroProvvedimento)
  }

  predicate HoldsAddress(row: Row, a: Address) {
    && Holds(row, "indirizzo", a.indirizzo) && Holds(row, "cap", a.cap)
    && Holds(row, "provincia", a.provincia) && Holds(row, "stato_estero", a.statoEstero)
  }

  /** The trace's address wins over the one read; without either the columns are empty. */
  function AddressFor(rec: MaggioliRecord, answer: Answer): Address {
    if rec.csvAddress.Some? then rec.csvAddress.value
    else if answer.Extracted? && answer.result.address.Some? then answer.result.address.value
    else Address("", "", "", "", "")
  }

  predicate HoldsPayment(row: Row, rec: MaggioliRecord, total: Option<Payment>) {
    if total.Some? then
      && Holds(row, "importo", total.value.importo) && Holds(row, "scadenza", total.value.scadenza)
      && Holds(row, "numero_avviso", if total.value.numeroAvviso != "" then total.value.numeroAvviso else rec.csvNumeroAvviso)
      && Holds(row, "numero_avviso_alternativo",
           if total.value.numeroAvvisoAlternativo != "" then total.value.numeroAvvisoAlternativo else rec.csvNumeroAvvisoAlt)
    else
      && Holds(row, "importo", "") && Holds(row, "scadenza", "")
      && Holds(row, "numero_avviso", rec.csvNumeroAvviso)
      && Holds(row, "numero_avviso_alternativo", rec.csvNumeroAvvisoAlt)
  }

  /** Each instalment under its own number. */
  predicate HoldsRates(row: Row, rate: seq<Payment>) {
    forall k :: 0 <= k < |rate| ==>
      && Holds(row, RateKey(k + 1, "_numero_avviso"), rate[k].numeroAvviso)
      && Holds(row, RateKey(k + 1, "_importo"), rate[k].importo)
      && Holds(row, RateKey(k + 1, "_scadenza"), rate[k].scadenza)
  }

  lemma BaseRowRecord(rec: MaggioliRecord)
    ensures HoldsRecord(BaseRow(rec), rec)
  {
  }

  lemma BaseRowPayment(rec: MaggioliRecord)
    ensures HoldsPayment(BaseRow(rec), rec, None) && Holds(BaseRow(rec), "codice_fiscale", rec.codiceFiscale)
  {
  }

  lemma BaseRowAddress(rec: MaggioliRecord)
    ensures HoldsAddress(BaseRow(rec), AddressOf(rec)) && Holds(BaseRow(rec), "comune", AddressOf(rec).comune)
  {
  }

  lemma BaseRowHolds(rec: MaggioliRecord)
    ensures HoldsRecord(BaseRow(rec), rec) && HoldsPayment(BaseRow(rec), rec, None)
    ensures HoldsAddress(BaseRow(rec), AddressOf(rec))
    ensures Holds(BaseRow(rec), "comune", AddressOf(rec).comune) && Holds(BaseRow(rec), "codice_fiscale", rec.codiceFiscale)
  {
    BaseRowRecord(rec);
    BaseRowPayment(rec);
    BaseRowAddress(rec);
  }

  lemma WithAddressHolds(row: Row, rec: MaggioliRecord, a: Address)
    requires HoldsRecord(row, rec) && HoldsPayment(row, rec, None) && Holds(row, "codice_fiscale", rec.codiceFiscale)
    ensures var now := WithAddress(row, a);
      HoldsRecord(now, rec) && HoldsPayment(now, rec, None) && Holds(now, "codice_fiscale", rec.codiceFiscale)
      && HoldsAddress(now, a) && Holds(now, "comune", a.comune)
  {
  }

  lemma WithTotalHolds(row: Row, rec: MaggioliRecord, a: Address, p: Payment)
    requires HoldsRecord(row, rec) && HoldsAddress(row, a)
    requires Holds(row, "comune", a.comune) && Holds(row, "codice_fiscale", rec.codiceFiscale)
    ensures var now := WithTotal(row, rec, p);
      HoldsRecord(now, rec) && HoldsAddress(now, a) && HoldsPayment(now, rec, Some(p))
      && Holds(now, "comune", a.comune) && Holds(now, "codice_fiscale", rec.codiceFiscale)
  {
  }

  lemma PaidHolds(rec: MaggioliRecord, r: ExtractResult)
    ensures var (row, a) := (Paid(rec, r), AddressFor(rec, Extracted(r)));
      HoldsRecord(row, rec) && HoldsAddress(row, a) && HoldsPayment(row, rec, r.totale)
      && Holds(row, "comune", a.comune) && Holds(row, "codice_fiscale", rec.codiceFiscale)
  {
    var a := AddressFor(rec, Extracted(r));
    BaseRowHolds(rec);
    var located := if rec.csvAddress == None && r.address.Some? then WithAddress(BaseRow(rec), r.address.value) else BaseRow(rec);
    if rec.csvAddress == None && r.address.Some? {
      WithAddressHolds(BaseRow(rec), rec, r.address.value);
    }
    if r.totale.Some? {
      WithTotalHolds(located, rec, a, r.totale.value);
    }
  }

  lemma {:induction false} RatesKeepBase(row: Row, rate: seq<Payment>, h: string)
    requires h in BASE_CSV_HEADERS
    ensures Get(WithRates(row, rate), h) == Get(row, h)
  {
    if rate != [] {
      RatesKeepBase(row, rate[..|rate| - 1], h);
      RateKeyNotBase(|rate|, "_numero_avviso");
      RateKeyNotBase(|rate|, "_importo");
      RateKeyNotBase(|rate|, "_scadenza");
    }
  }

  function RateWritten(row: Row, n: nat, p: Payment): Row {
    row[RateKey(n, "_numero_avviso") := p.numeroAvviso][RateKey(n, "_importo") := p.importo]
       [RateKey(n, "_scadenza") := p.scadenza]
  }

  lemma RateWrittenHolds(row: Row, n: nat, p: Payment)
    ensures var now := RateWritten(row, n, p);
      && Holds(now, RateKey(n, "_numero_avviso"), p.numeroAvviso) && Holds(now, RateKey(n, "_importo"), p.importo)
      && Holds(now, RateKey(n, "_scadenza"), p.scadenza)
  {
    OwnRate(n);
  }

  lemma RateWrittenElsewhere(row: Row, n: nat, p: Payment, i: nat, f: string)
    requires i != n && IsRateField(f)
    ensures Get(RateWritten(row, n, p), RateKey(i, f)) == Get(row, RateKey(i, f))
  {
    OtherRate(i, f, n);
  }

  lemma {:induction false} RatesHold(row: Row, rate: seq<Payment>)
    ensures HoldsRates(WithRates(row, rate), rate)
  {
    if rate != [] {
      var n, before := |rate|, WithRates(row, rate[..|rate| - 1]);
      RatesHold(row, rate[..n - 1]);
      RateWrittenHolds(before, n, rate[n - 1]);
      forall k | 0 <= k < n - 1
        ensures Holds(WithRates(row, rate), RateKey(k + 1, "_numero_avviso"), rate[k].numeroAvviso)
        ensures Holds(WithRates(row, rate), RateKey(k + 1, "_importo"), rate[k].importo)
        ensures Holds(WithRates(row, rate), RateKey(k + 1, "_scadenza"), rate[k].scadenza)
      {
        assert rate[..n - 1][k] == rate[k];
        RateWrittenElsewhere(before, n, rate[n - 1], k + 1, "_numero_avviso");
        RateWrittenElsewhere(before, n, rate[n - 1], k + 1, "_importo");
        RateWrittenElsewhere(before, n, rate[n - 1], k + 1, "_scadenza");
      }
    }
  }

  lemma OtherRate(i: nat, f: string, n: nat)
    requires i != n && IsRateField(f)
    ensures RateKey(i, f) != RateKey(n, "_numero_avviso") && RateKey(i, f) != RateKey(n, "_importo")
      && RateKey(i, f) != RateKey(n, "_scadenza")
  {
    RateFieldShape(f);
    if RateKey(i, f) == RateKey(n, "_numero_avviso") {
      RateKeyInjective(i, f, n, "_numero_avviso");
    }
    if RateKey(i, f) == RateKey(n, "_importo") {
      RateKeyInjective(i, f, n, "_importo");
    }
    if RateKey(i, f) == RateKey(n, "_scadenza") {
      RateKeyInjective(i, f, n, "_scadenza");
    }
  }

  lemma OwnRate(n: nat)
    ensures RateKey(n, "_numero_avviso") != RateKey(n, "_importo") && RateKey(n, "_numero_avviso") != RateKey(n, "_scadenza")
      && RateKey(n, "_importo") != RateKey(n, "_scadenza")
  {
    if RateKey(n, "_numero_avviso") == RateKey(n, "_importo") {
      RateKeyInjective(n, "_numero_avviso", n, "_importo");
    }
    if RateKey(n, "_numero_avviso") == RateKey(n, "_scadenza") {
      RateKeyInjective(n, "_numero_avviso", n, "_scadenza");
    }
    if RateKey(n, "_importo") == RateKey(n, "_scadenza") {
      RateKeyInjective(n, "_importo", n, "_scadenza");
    }
  }

  /** Municipality names are cut to 30 characters, by the official short form where there is one. */
  function CityFor(rules: Rules, comune: string): string {
    var c := Trim(comune);
    if |c| <= 30 then comune else if |rules.abbreviate(c)| <= 30 then rules.abbreviate(c) else c[..30]
  }

  /** A tax id that is not valid gives way to a valid one read from the PDF. */
  function TaxIdFor(rules: Rules, csv: string, found: Option<string>): string {
    if Trim(csv) != "" && !rules.validTaxId(Trim(csv)) && found.Some? && Trim(found.value) != "" && rules.validTaxId(Trim(found.value))
    then Trim(found.value) else csv
  }

  /** Where every value of an extracted row comes from. */
  lemma ExtractHolds(rules: Rules, rec: MaggioliRecord, rowNum: nat, answer: Answer)
    ensures var row, a := Extract(rules, rec, rowNum, answer).row, AddressFor(rec, answer);
      && HoldsRecord(row, rec) && HoldsAddress(row, a)
      && HoldsPayment(row, rec, if answer.Extracted? then answer.result.totale else None)
      && HoldsRates(row, if answer.Extracted? then answer.result.rate else [])
      && Holds(row, "comune", CityFor(rules, a.comune))
      && Holds(row, "codice_fiscale",
           TaxIdFor(rules, rec.codiceFiscale, if answer.Extracted? then answer.result.fiscalCode else None))
  {
    var row := if answer.Extracted? then Read(rec, answer.result) else BaseRow(rec);
    BaseRowHolds(rec);
    if answer.Extracted? {
      PaidHolds(rec, answer.result);
      ReadHolds(rec, answer.result);
    }
    ValidatedHolds(rules, row, rec, AddressFor(rec, answer), if answer.Extracted? then answer.result.totale else None,
      if answer.Extracted? then answer.result.rate else [], if answer.Extracted? then answer.result.fiscalCode else None);
  }

  lemma ReadHolds(rec: MaggioliRecord, r: ExtractResult)
    ensures var row, a := Read(rec, r), AddressFor(rec, Extracted(r));
      HoldsRecord(row, rec) && HoldsAddress(row, a) && HoldsPayment(row, rec, r.totale) && HoldsRates(row, r.rate)
      && Holds(row, "comune", a.comune) && Holds(row, "codice_fiscale", rec.codiceFiscale)
  {
    var row, now := Paid(rec, r), Read(rec, r);
    PaidHolds(rec, r);
    RatesHold(row, r.rate);
    forall h | h in BASE_CSV_HEADERS ensures Get(now, h) == Get(row, h) {
      RatesKeepBase(row, r.rate, h);
    }
    KnownNames();
    RecordKept(row, now, rec);
    AddressKept(row, now, AddressFor(rec, Extracted(r)));
    PaymentKept(row, now, rec, r.totale);
  }

  lemma KnownNames()
    ensures "nominativo" in BASE_CSV_HEADERS && "tipo" in BASE_CSV_HEADERS && "pec" in BASE_CSV_HEADERS
    ensures "allegato" in BASE_CSV_HEADERS && "numero_provvedimento" in BASE_CSV_HEADERS
    ensures "data_emissione" in BASE_CSV_HEADERS && "oggetto" in BASE_CSV_HEADERS && "external_id" in BASE_CSV_HEADERS
    ensures "indirizzo" in BASE_CSV_HEADERS && "cap" in BASE_CSV_HEADERS && "provincia" in BASE_CSV_HEADERS
    ensures "stato_estero" in BASE_CSV_HEADERS && "importo" in BASE_CSV_HEADERS && "scadenza" in BASE_CSV_HEADERS
    ensures "numero_avviso" in BASE_CSV_HEADERS && "numero_avviso_alternativo" in BASE_CSV_HEADERS
    ensures "comune" in BASE_CSV_HEADERS && "codice_fiscale" in BASE_CSV_HEADERS
  {
    assert BASE_CSV_HEADERS[0] == "codice_fiscale";
  }

  lemma ValidatedElsewhere(rules: Rules, row: Row, found: Option<string>, h: string)
    requires h != "comune" && h != "codice_fiscale"
    ensures Get(Validated(rules, row, found), h) == Get(row, h)
  {
  }

  lemma ValidatedCity(rules: Rules, row: Row, found: Option<string>, comune: string)
    requires Holds(row, "comune", comune)
    ensures Holds(Validated(rules, row, found), "comune", CityFor(rules, comune))
  {
  }

  lemma ValidatedTaxId(rules: Rules, row: Row, found: Option<string>, csv: string)
    requires Holds(row, "codice_fiscale", csv)
    ensures Holds(Validated(rules, row, found), "codice_fiscale", TaxIdFor(rules, csv, found))
  {
    assert Trim("") == "";
  }

  lemma ValidatedRate(rules: Rules, row: Row, found: Option<string>, n: nat, f: string)
    requires IsRateField(f)
    ensures Get(Validated(rules, row, found), RateKey(n, f)) == Get(row, RateKey(n, f))
  {
    KnownNames();
    RateKeyNotBase(n, f);
    ValidatedElsewhere(rules, row, found, RateKey(n, f));
  }

  lemma ValidatedRates(rules: Rules, row: Row, rate: seq<Payment>, found: Option<string>)
    requires HoldsRates(row, rate)
    ensures HoldsRates(Validated(rules, row, found), rate)
  {
    forall k | 0 <= k < |rate|
      ensures Holds(Validated(rules, row, found), RateKey(k + 1, "_numero_avviso"), rate[k].numeroAvviso)
      ensures Holds(Validated(rules, row, found), RateKey(k + 1, "_importo"), rate[k].importo)
      ensures Holds(Validated(rules, row, found), RateKey(k + 1, "_scadenza"), rate[k].scadenza)
    {
      ValidatedRate(rules, row, found, k + 1, "_numero_avviso");
      ValidatedRate(rules, row, found, k + 1, "_importo");
      ValidatedRate(rules, row, found, k + 1, "_scadenza");
    }
  }

  predicate SameButRules(row: Row, now: Row) {
    forall h :: h in BASE_CSV_HEADERS && h != "comune" && h != "codice_fiscale" ==> Get(now, h) == Get(row, h)
  }

  lemma RecordKept(row: Row, now: Row, rec: MaggioliRecord)
    requires HoldsRecord(row, rec) && SameButRules(row, now)
    ensures HoldsRecord(now, rec)
  {
    KnownNames();
  }

  lemma AddressKept(row: Row, now: Row, a: Address)
    requires HoldsAddress(row, a) && SameButRules(row, now)
    ensures HoldsAddress(now, a)
  {
    KnownNames();
  }

  lemma PaymentKept(row: Row, now: Row, rec: MaggioliRecord, total: Option<Payment>)
    requires HoldsPayment(row, rec, total) && SameButRules(row, now)
    ensures HoldsPayment(now, rec, total)
  {
    KnownNames();
  }

  lemma ValidatedHolds(rules: Rules, row: Row, rec: MaggioliRecord, a: Address, total: Option<Payment>, rate: seq<Payment>,
      found: Option<string>)
    requires HoldsRecord(row, rec) && HoldsAddress(row, a) && HoldsPayment(row, rec, total) && HoldsRates(row, rate)
    requires Holds(row, "comune", a.comune) && Holds(row, "codice_fiscale", rec.codiceFiscale)
    ensures var now := Validated(rules, row, found);
      HoldsRecord(now, rec) && HoldsAddress(now, a) && HoldsPayment(now, rec, total) && HoldsRates(now, rate)
      && Holds(now, "comune", CityFor(rules, a.comune)) && Holds(now, "codice_fiscale", TaxIdFor(rules, rec.codiceFiscale, found))
  {
    ValidatedCity(rules, row, found, a.comune);
    ValidatedTaxId(rules, row, found, rec.codiceFiscale);
    ValidatedRates(rules, row, rate, found);
    var now := Validated(rules, row, found);
    forall h | h != "comune" && h != "codice_fiscale" ensures Get(now, h) == Get(row, h) {
      ValidatedElsewhere(rules, row, found, h);
    }
    RecordKept(row, now, rec);
    AddressKept(row, now, a);
    PaymentKept(row, now, rec, total);
  }

  /** The row names a country that is known and is not Italy. */
  predicate Abroad(rules: Rules, row: Row) {
    var paese := Trim(Cell(row, "stato_estero"));
    paese != "" && rules.matchCountry(paese).Some? && rules.matchCountry(paese).value !in {"", "Italia"}
  }

  /** A warning is in the list exactly when its rule is broken, and only once. */
  predicate Said(messages: seq<string>, m: string, broken: bool) {
    messages == if broken then [m] else []
  }

  lemma CountrySaid(rules: Rules, row: Row)
    ensures var paese := Trim(Cell(row, "stato_estero"));
      Said(CountryMessages(rules, row), "Paese \"" + paese + "\" non riconosciuto",
        paese != "" && (rules.matchCountry(paese) == None || rules.matchCountry(paese) == Some("")))
  {
  }

  lemma CitySaid(rules: Rules, row: Row)
    ensures var comune := Trim(Cell(row, "comune"));
      && (|comune| <= 30 ==> Said(CityMessages(rules, row), "Città mancante", comune == ""))
      && (|comune| > 30 ==> Said(CityMessages(rules, row), "Città troppo lunga (" + Decimal(|comune|) + " caratteri, max 30)",
           |rules.abbreviate(comune)| > 30))
  {
  }

  lemma AreaSaid(rules: Rules, row: Row)
    ensures Abroad(rules, row) ==> AreaMessages(rules, row) == []
    ensures !Abroad(rules, row) ==> (AreaMessages(rules, row)
      == (if Trim(Cell(row, "provincia")) == "" then ["Provincia mancante"] else [])
        + (if Trim(Cell(row, "cap")) == "" || rules.validCap(Cell(row, "cap")) then [] else ["CAP non valido (richieste 5 cifre)"]))
  {
  }

  lemma TaxIdSaid(rules: Rules, row: Row, found: Option<string>)
    ensures var csv, pdf := Trim(Cell(row, "codice_fiscale")), Trim(found.GetOr(""));
      && (csv == "" ==> TaxIdMessages(rules, row, found) == [TAX_ID + " mancante"])
      && (csv != "" ==> Said(TaxIdMessages(rules, row, found),
           TAX_ID + (if pdf != "" && rules.validTaxId(pdf)
             then " CSV non valido (\"" + csv + "\") — sostituito con valore estratto dal PDF"
             else " non valido (\"" + csv + "\")"),
           !rules.validTaxId(csv)))
  {
  }

  /** The content warnings of an extraction are those of the four rules, in order, on the row as it was read, after
      the warnings of the answer. */
  lemma WarningsSaid(rules: Rules, rec: MaggioliRecord, rowNum: nat, answer: Answer)
    ensures var row := if answer.Extracted? then Read(rec, answer.result) else BaseRow(rec);
      var found := if answer.Extracted? then answer.result.fiscalCode else None;
      var messages := (match answer
          case PdfMissing => ["PDF non trovato nel ZIP"]
          case ExtractionFailed(m) => ["Estrazione fallita: " + m]
          case Extracted(r) => r.warnings)
        + (CountryMessages(rules, row) + CityMessages(rules, row) + AreaMessages(rules, row) + TaxIdMessages(rules, row, found));
      var ws := Extract(rules, rec, rowNum, answer).warnings;
      |ws| == |messages| && forall k :: 0 <= k < |ws| ==> ws[k] == Warning(rowNum, rec.pdfFilename, messages[k])
  {
    var row := if answer.Extracted? then Read(rec, answer.result) else BaseRow(rec);
    var found := if answer.Extracted? then answer.result.fiscalCode else None;
    BothNumbered(AnswerMessages(answer), ContentMessages(rules, row, found), rowNum, rec.pdfFilename);
  }

  lemma BothNumbered(a: seq<string>, b: seq<string>, rowNum: nat, pdf: string)
    ensures var ws := Numbered(a, rowNum, pdf) + Numbered(b, rowNum, pdf);
      |ws| == |a + b| && forall k :: 0 <= k < |ws| ==> ws[k] == Warning(rowNum, pdf, (a + b)[k])
  {
    NumberedAre(a, rowNum, pdf);
    NumberedAre(b, rowNum, pdf);
  }

  lemma NumberedAre(messages: seq<string>, rowNum: nat, pdf: string)
    ensures var ws := Numbered(messages, rowNum, pdf);
      |ws| == |messages| && forall k :: 0 <= k < |ws| ==> ws[k] == Warning(rowNum, pdf, messages[k])
  {
    var ws := Numbered(messages, rowNum, pdf);
    assert forall k :: 0 <= k < |ws| ==> ws[k] in ws;
  }
}
