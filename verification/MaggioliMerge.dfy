/** pag_indice.csv, and the merge of a trace that arrives in several ZIP files. */
module MaggioliMerge {
  import opened Text
  import opened RowExtraction
  import opened MaggioliTrace

  // ------------------------------------------------------------- cells

  function DropApostrophes(s: string): string {
    if s != "" && s[0] == '\'' then DropApostrophes(s[1..]) else s
  }

  predicate OneLineText(s: string) {
    forall c :: c in s ==> c !in "\n\r\U{2028}\U{2029}"
  }

  /** What stands between the quotes of `="..."` or `"..."`, if the cell is written so. */
  function Quoted(trimmed: string): Option<string> {
    var u := if trimmed != "" && trimmed[0] == '=' then trimmed[1..] else trimmed;
    var n := |u|;
    if n >= 2 && u[0] == '"' && u[n - 1] == '"' && OneLineText(u[1..n - 1]) then Some(u[1..n - 1]) else None
  }

  function StripApice(s: string): string {
    var q := Quoted(Trim(s));
    if q.Some? then q.value else DropApostrophes(s)
  }

  /** A cell as every use takes it. */
  function CellText(s: string): string {
    Trim(StripApice(s))
  }

  /** A value may be written plain, after an apostrophe, between quotes, or as the formula of a text: the cell is
      the same. */
  lemma CellForms(v: string)
    requires Trim(v) == v && (v == "" || v[0] !in "'=\"")
    ensures CellText(v) == v && CellText("'" + v) == v
    ensures OneLineText(v) ==> CellText("\"" + v + "\"") == v && CellText("=\"" + v + "\"") == v
  {
    assert ("'" + v)[1..] == v;
    AfterApostrophe(v);
    if OneLineText(v) {
      QuotedForms(v);
    }
  }

  lemma AfterApostrophe(v: string)
    requires Trim(v) == v && (v == "" || v[0] !in "'=\"")
    ensures Quoted(Trim("'" + v)).None? && Quoted(v).None?
  {
    if v == "" {
      TrimPlain("'");
      assert "'" + v == "'";
    } else {
      assert !IsSpace(v[|v| - 1]);
      TrimPlain("'" + v);
    }
  }

  lemma QuotedForms(v: string)
    requires OneLineText(v)
    ensures Quoted(Trim("\"" + v + "\"")) == Some(v) && Quoted(Trim("=\"" + v + "\"")) == Some(v)
  {
    var plain := "\"" + v + "\"";
    TrimPlain(plain);
    TrimPlain("=" + plain);
    assert plain[1..|plain| - 1] == v && ("=" + plain)[1..] == plain;
    assert "=\"" + v + "\"" == "=" + plain;
  }

  function Mapped(parts: seq<string>, f: string -> string): (r: seq<string>)
    ensures |r| == |parts| && forall i :: 0 <= i < |parts| ==> r[i] == f(parts[i])
  {
    seq(|parts|, i requires 0 <= i < |parts| => f(parts[i]))
  }

  lemma MappedLonger(parts: seq<string>, c: char, f: string -> string)
    requires parts != [] && f(parts[|parts| - 1] + [c]) == f(parts[|parts| - 1])
    ensures Mapped(Longer(parts, c), f) == Mapped(parts, f)
  {
  }

  lemma {:induction false} ApostrophesSpaceAfter(s: string, c: char)
    requires IsSpace(c)
    ensures Trim(DropApostrophes(s + [c])) == Trim(DropApostrophes(s))
  {
    if s == "" {
      assert s + [c] == [c] && TrimLeft([c]) == TrimLeft([c][1..]);
    } else if s[0] == '\'' {
      assert (s + [c])[1..] == s[1..] + [c];
      ApostrophesSpaceAfter(s[1..], c);
    } else {
      TrimSpaceAfter(s, c);
    }
  }

  lemma CellSpaceAfter(s: string, c: char)
    requires IsSpace(c)
    ensures CellText(s + [c]) == CellText(s)
  {
    TrimSpaceAfter(s, c);
    ApostrophesSpaceAfter(s, c);
  }

  // ------------------------------------------------------------- pag_indice.csv

  /** Cells of a line. */
  function Cells(line: string): seq<string> {
    Mapped(Split(line, ';'), CellText)
  }

  lemma CellsSpaceAfter(line: string, c: char)
    requires IsSpace(c)
    ensures Cells(line + [c]) == Cells(line)
  {
    var parts := Split(line, ';');
    SplitLast(line, c);
    CellSpaceAfter(parts[|parts| - 1], c);
    MappedLonger(parts, c, CellText);
  }

  /** `row[name]`: the column under the last header of that name. */
  function Column(header: seq<string>, cells: seq<string>, name: string): string {
    if header == [] then ""
    else
      var n := |header| - 1;
      if header[n] == name then (if n < |cells| then cells[n] else "") else Column(header[..n], cells, name)
  }

  /** A cell belongs to the header above it, the last of several of one name; nothing stands under other names. */
  lemma {:induction false} UnderHeader(header: seq<string>, cells: seq<string>, k: nat)
    requires k < |header| && header[k] !in header[k + 1..]
    ensures Column(header, cells, header[k]) == if k < |cells| then cells[k] else ""
  {
    var n := |header| - 1;
    if k < n {
      assert header[n] in header[k + 1..];
      assert header[k + 1..] == header[..n][k + 1..] + [header[n]];
      UnderHeader(header[..n], cells, k);
    }
  }

  lemma {:induction false} NotUnderHeader(header: seq<string>, cells: seq<string>, name: string)
    requires name !in header
    ensures Column(header, cells, name) == ""
  {
    if header != [] {
      NotUnderHeader(header[..|header| - 1], cells, name);
    }
  }

  datatype Place = Place(cap: string, comune: string, provincia: string)

  /** One record; `locate` is parseLocalita. */
  function PagRecord(locate: string -> Place, header: seq<string>, cells: seq<string>): MaggioliRecord {
    var (at1, at2) := (Column(header, cells, "indirizzo"), Column(header, cells, "indirizzo parte 2"));
    var place := locate(Column(header, cells, "localita"));
    var taxCode := NormalizeCodiceFiscale(Column(header, cells, "cod. fisc. dest"));
    MaggioliRecord(taxCode, Column(header, cells, "destinatario"), TipoFromCf(taxCode), "",
      Column(header, cells, "Num. provv"), Column(header, cells, "Data emissione"), "", Column(header, cells, "nome file"),
      Some(Address(if at2 != "" then Trim(at1 + " " + at2) else at1, place.cap,
        if place.comune != "" then place.comune else Column(header, cells, "comune"), place.provincia,
        Column(header, cells, "stato estero"))),
      Column(header, cells, "Ocr int"), Column(header, cells, "Ocr rid"), Column(header, cells, "ocr notifica"))
  }

  /** Which header each part of a record comes from. */
  lemma PagColumns(locate: string -> Place, header: seq<string>, cells: seq<string>, k: nat)
    requires k < |header| && header[k] !in header[k + 1..]
    ensures var r := PagRecord(locate, header, cells); var v := if k < |cells| then cells[k] else "";
      && (header[k] == "cod. fisc. dest" ==> r.codiceFiscale == NormalizeCodiceFiscale(v) && r.tipo == TipoFromCf(r.codiceFiscale))
      && (header[k] == "destinatario" ==> r.nominativo == v)
      && (header[k] == "Num. provv" ==> r.numeroProvvedimento == v)
      && (header[k] == "Data emissione" ==> r.dataEmissione == v)
      && (header[k] == "nome file" ==> r.pdfFilename == v)
      && (header[k] == "Ocr int" ==> r.csvNumeroAvviso == v)
      && (header[k] == "Ocr rid" ==> r.csvNumeroAvvisoAlt == v)
      && (header[k] == "ocr notifica" ==> r.ocrNotifica == v)
  {
    UnderHeader(header, cells, k);
  }

  /** And each part of its address; the municipality column counts only where the place gives none. */
  lemma PagAddress(locate: string -> Place, header: seq<string>, cells: seq<string>, k: nat)
    requires k < |header| && header[k] !in header[k + 1..]
    ensures var r := PagRecord(locate, header, cells); var v := if k < |cells| then cells[k] else "";
      && r.pec == "" && r.oggetto == "" && r.csvAddress.Some?
      && (header[k] == "stato estero" ==> r.csvAddress.value.statoEstero == v)
      && (header[k] == "localita" ==> SamePlace(r.csvAddress.value, locate(v)))
      && (header[k] == "comune" && locate(Column(header, cells, "localita")).comune == "" ==> r.csvAddress.value.comune == v)
      && (header[k] == "indirizzo" && "indirizzo parte 2" !in header ==> r.csvAddress.value.indirizzo == v)
  {
    UnderHeader(header, cells, k);
    if "indirizzo parte 2" !in header {
      NotUnderHeader(header, cells, "indirizzo parte 2");
    }
  }

  /** Postcode and province are those of the place, and so is the municipality that it names. */
  predicate SamePlace(a: Address, p: Place) {
    a.cap == p.cap && a.provincia == p.provincia && (p.comune != "" ==> a.comune == p.comune)
  }

  /** An address in two columns is the two with a space between. */
  lemma PagSecondLine(locate: string -> Place, header: seq<string>, cells: seq<string>, j: nat, k: nat)
    requires j < |header| && header[j] == "indirizzo" && header[j] !in header[j + 1..]
    requires k < |header| && header[k] == "indirizzo parte 2" && header[k] !in header[k + 1..]
    requires j < |cells| && k < |cells| && cells[k] != ""
    ensures PagRecord(locate, header, cells).csvAddress.value.indirizzo == Trim(cells[j] + " " + cells[k])
  {
    UnderHeader(header, cells, j);
    UnderHeader(header, cells, k);
  }

  function NonBlank(lines: seq<string>): seq<string> {
    if lines == [] then []
    else
      var last := lines[|lines| - 1];
      NonBlank(lines[..|lines| - 1]) + if Trim(last) == "" then [] else [last]
  }

  /** A line read under a header. */
  function Reader(locate: string -> Place, header: seq<string>): string -> MaggioliRecord {
    line => PagRecord(locate, header, Cells(line))
  }

  function PagRows(read: string -> MaggioliRecord, lines: seq<string>): seq<MaggioliRecord> {
    if lines == [] then [] else PagRows(read, lines[..|lines| - 1]) + [read(lines[|lines| - 1])]
  }

  function PagLines(locate: string -> Place, lines: seq<string>): seq<MaggioliRecord> {
    var kept := NonBlank(lines);
    if kept == [] then [] else PagRows(Reader(locate, Cells(kept[0])), kept[1..])
  }

  /** What parsePagIndice gives. */
  function PagIndice(locate: string -> Place, text: string): seq<MaggioliRecord> {
    PagLines(locate, SplitLines(text))
  }

  method ReadRows(read: string -> MaggioliRecord, lines: seq<string>) returns (records: seq<MaggioliRecord>)
    ensures records == PagRows(read, lines)
  {
    records := [];
    for i := 0 to |lines|
      invariant records == PagRows(read, lines[..i])
    {
      assert lines[..i + 1][..i] == lines[..i];
      records := records + [read(lines[i])];
    }
    assert lines[..|lines|] == lines;
  }

  method ParsePagIndice(locate: string -> Place, text: string) returns (records: seq<MaggioliRecord>)
    ensures records == PagIndice(locate, text)
  {
    var lines := NonBlank(SplitLines(text));
    if lines == [] { return []; }
    records := ReadRows(Reader(locate, Cells(lines[0])), lines[1..]);
  }

  // ------------------------------------------------------------- lines put together

  lemma {:induction false} NonBlankAppend(a: seq<string>, b: seq<string>)
    ensures NonBlank(a + b) == NonBlank(a) + NonBlank(b)
  {
    if b == [] {
      assert a + b == a;
    } else {
      var n := |b| - 1;
      assert (a + b)[..|a + b| - 1] == a + b[..n];
      NonBlankAppend(a, b[..n]);
    }
  }

  lemma {:induction false} PagRowsAppend(read: string -> MaggioliRecord, a: seq<string>, b: seq<string>)
    ensures PagRows(read, a + b) == PagRows(read, a) + PagRows(read, b)
  {
    if b == [] {
      assert a + b == a;
    } else {
      var n := |b| - 1;
      assert (a + b)[..|a + b| - 1] == a + b[..n];
      PagRowsAppend(read, a, b[..n]);
    }
  }

  lemma {:induction false} NonBlankSame(a: seq<string>, b: seq<string>)
    requires SameButCr(a, b)
    ensures SameButCr(NonBlank(a), NonBlank(b))
  {
    if a != [] {
      var n := |a| - 1;
      var x, y := NonBlank(a[..n]), NonBlank(b[..n]);
      NonBlankSame(a[..n], b[..n]);
      SameBlank(a[n], b[n]);
      SameButCrPush(x, y, a[n], b[n]);
    }
  }

  lemma SameButCrPush(x: seq<string>, y: seq<string>, a: string, b: string)
    requires SameButCr(x, y) && (a == b || a == b + "\r" || a + "\r" == b)
    ensures SameButCr(x + [a], y + [b])
  {
  }

  lemma SameBlank(a: string, b: string)
    requires a == b || a == b + "\r" || a + "\r" == b
    ensures Trim(a) == Trim(b)
  {
    TrimSpaceAfter(a, '\r');
    TrimSpaceAfter(b, '\r');
  }

  lemma {:induction false} PagRowsSame(locate: string -> Place, header: seq<string>, a: seq<string>, b: seq<string>)
    requires SameButCr(a, b)
    ensures PagRows(Reader(locate, header), a) == PagRows(Reader(locate, header), b)
  {
    if a != [] {
      var n := |a| - 1;
      PagRowsSame(locate, header, a[..n], b[..n]);
      CellsSame(a[n], b[n]);
    }
  }

  lemma CellsSame(a: string, b: string)
    requires a == b || a == b + "\r" || a + "\r" == b
    ensures Cells(a) == Cells(b)
  {
    CellsSpaceAfter(a, '\r');
    CellsSpaceAfter(b, '\r');
  }

  /** Line ends do not show in the records. */
  lemma PagLinesSame(locate: string -> Place, a: seq<string>, b: seq<string>)
    requires SameButCr(a, b)
    ensures PagLines(locate, a) == PagLines(locate, b)
  {
    NonBlankSame(a, b);
    var (x, y) := (NonBlank(a), NonBlank(b));
    if x != [] {
      CellsSame(x[0], y[0]);
      PagRowsSame(locate, Cells(x[0]), x[1..], y[1..]);
    }
  }

  /** With a non-blank first line the others are the rows. */
  lemma PagLinesAfter(locate: string -> Place, header: string, rest: seq<string>)
    requires Trim(header) != ""
    ensures PagLines(locate, [header] + rest) == PagRows(Reader(locate, Cells(header)), NonBlank(rest))
  {
    NonBlankAppend([header], rest);
    assert [header][..0] == [];
    assert NonBlank([header]) == [header];
  }

  // ------------------------------------------------------------- the merge

  datatype Format = RubricaCsv | PagIndiceCsv

  /** A ZIP: the trace it holds, pag_indice.csv before rubrica.csv, and its text. */
  datatype Zip = Zip(format: Option<Format>, text: string)

  datatype MergeError = UnknownFormat(i: nat) | MixedFormats(i: nat) | DifferentHeaders(i: nat) | SharedPdf(name: string, i: nat, j: nat)

  datatype Merge = Merged(records: seq<MaggioliRecord>, mergedCsvText: string) | Refused(error: MergeError)

  function Records(locate: string -> Place, z: Zip): seq<MaggioliRecord> {
    if z.format == Some(PagIndiceCsv) then PagIndice(locate, z.text)
    else if z.format == Some(RubricaCsv) then Rubrica(z.text)
    else []
  }

  /** What a reading gives for each ZIP, one after the other. */
  function Collected(zips: seq<Zip>, read: Zip -> seq<MaggioliRecord>): seq<MaggioliRecord> {
    if zips == [] then [] else Collected(zips[..|zips| - 1], read) + read(zips[|zips| - 1])
  }

  function Reading(locate: string -> Place): Zip -> seq<MaggioliRecord> {
    z => Records(locate, z)
  }

  function AllRecords(locate: string -> Place, zips: seq<Zip>): seq<MaggioliRecord> {
    Collected(zips, Reading(locate))
  }

  lemma {:induction false} CollectedSame(zips: seq<Zip>, f: Zip -> seq<MaggioliRecord>, g: Zip -> seq<MaggioliRecord>)
    requires forall i :: 0 <= i < |zips| ==> f(zips[i]) == g(zips[i])
    ensures Collected(zips, f) == Collected(zips, g)
  {
    if zips != [] {
      CollectedSame(zips[..|zips| - 1], f, g);
    }
  }

  function FirstLine(z: Zip): string {
    SplitLines(z.text)[0]
  }

  /** The lines of all the ZIPs but their headers. */
  function Rests(zips: seq<Zip>): seq<string> {
    if zips == [] then [] else Rests(zips[..|zips| - 1]) + SplitLines(zips[|zips| - 1].text)[1..]
  }

  function Texts(zips: seq<Zip>): (r: seq<string>)
    ensures |r| == |zips| && forall i :: 0 <= i < |zips| ==> r[i] == zips[i].text
  {
    seq(|zips|, i requires 0 <= i < |zips| => zips[i].text)
  }

  function MergedText(zips: seq<Zip>): string
    requires zips != []
  {
    if zips[0].format == Some(PagIndiceCsv) then Join([FirstLine(zips[0])] + Rests(zips), '\n') else Join(Texts(zips), '\n')
  }

  function Headers(zips: seq<Zip>): (r: seq<string>)
    ensures |r| == |zips| && forall i :: 0 <= i < |zips| ==> r[i] == Trim(FirstLine(zips[i]))
  {
    seq(|zips|, i requires 0 <= i < |zips| => Trim(FirstLine(zips[i])))
  }

  predicate SameFormat(zips: seq<Zip>) {
    forall i :: 0 <= i < |zips| ==> zips[i].format.Some? && zips[i].format == zips[0].format
  }

  predicate SameHeaders(zips: seq<Zip>)
    requires zips != []
  {
    zips[0].format == Some(PagIndiceCsv) ==> AllSame(Headers(zips))
  }

  predicate AllSame(xs: seq<string>) {
    forall i :: 0 <= i < |xs| ==> xs[i] == xs[0]
  }

  /** The first archive that is out of place, formats coming before headers. */
  predicate Incompatible(zips: seq<Zip>, e: MergeError)
    requires zips != []
  {
    match e
    case UnknownFormat(i) => i < |zips| && zips[i].format.None? && forall k :: 0 <= k < i ==> zips[k].format.Some?
    case MixedFormats(i) =>
      && i < |zips| && (forall k :: 0 <= k < |zips| ==> zips[k].format.Some?)
      && zips[i].format != zips[0].format && forall k :: 0 <= k < i ==> zips[k].format == zips[0].format
    case DifferentHeaders(i) =>
      && i < |zips| && SameFormat(zips) && zips[0].format == Some(PagIndiceCsv)
      && Headers(zips)[i] != Headers(zips)[0] && forall k :: 0 <= k < i ==> Headers(zips)[k] == Headers(zips)[0]
    case SharedPdf(_, _, _) => false
  }

  method FirstDifferent(xs: seq<string>) returns (at: Option<nat>)
    ensures at.None? <==> AllSame(xs)
    ensures at.Some? ==> at.value < |xs| && xs[at.value] != xs[0] && forall k :: 0 <= k < at.value ==> xs[k] == xs[0]
  {
    for i := 0 to |xs|
      invariant forall k :: 0 <= k < i ==> xs[k] == xs[0]
    {
      if xs[i] != xs[0] { return Some(i); }
    }
    return None;
  }

  /** Formats and headers, in the order in which they are checked. */
  method CheckCompatible(zips: seq<Zip>) returns (error: Option<MergeError>)
    requires zips != []
    ensures error.None? <==> SameFormat(zips) && SameHeaders(zips)
    ensures error.Some? ==> Incompatible(zips, error.value)
  {
    for i := 0 to |zips|
      invariant forall k :: 0 <= k < i ==> zips[k].format.Some?
    {
      if zips[i].format.None? { return Some(UnknownFormat(i)); }
    }
    for i := 0 to |zips|
      invariant forall k :: 0 <= k < i ==> zips[k].format == zips[0].format
    {
      if zips[i].format != zips[0].format { return Some(MixedFormats(i)); }
    }
    if zips[0].format == Some(PagIndiceCsv) {
      var at := FirstDifferent(Headers(zips));
      if at.Some? { return Some(DifferentHeaders(at.value)); }
    }
    return None;
  }

  // ------------------------------------------------------------- names across ZIPs

  type Trace = seq<MaggioliRecord>

  function Parsed(locate: string -> Place, zips: seq<Zip>): (r: seq<Trace>)
    ensures |r| == |zips| && forall i :: 0 <= i < |zips| ==> r[i] == Records(locate, zips[i])
  {
    seq(|zips|, i requires 0 <= i < |zips| => Records(locate, zips[i]))
  }

  function Concat(traces: seq<Trace>): Trace {
    if traces == [] then [] else Concat(traces[..|traces| - 1]) + traces[|traces| - 1]
  }

  predicate Names(trace: Trace, pdf: string) {
    exists k :: 0 <= k < |trace| && trace[k].pdfFilename == pdf
  }

  /** No ZIP names a PDF that another one names. */
  ghost predicate NoSharedPdf(traces: seq<Trace>) {
    forall i, j, pdf :: 0 <= i < j < |traces| && pdf != "" ==> !(Names(traces[i], pdf) && Names(traces[j], pdf))
  }

  predicate Seen(seen: map<string, nat>, pdf: string, z: nat) {
    pdf != "" ==> pdf in seen && seen[pdf] == z
  }

  predicate AllSeen(seen: map<string, nat>, trace: Trace, z: nat) {
    forall n :: 0 <= n < |trace| ==> Seen(seen, trace[n].pdfFilename, z)
  }

  /** pdfSeenIn after the first i ZIPs: which of them named a PDF. */
  predicate SeenUpTo(traces: seq<Trace>, seen: map<string, nat>, i: nat)
    requires i <= |traces|
  {
    && (forall pdf :: pdf in seen ==> seen[pdf] < |traces| && Names(traces[seen[pdf]], pdf))
    && (forall z :: 0 <= z < i ==> AllSeen(seen, traces[z], z))
  }

  /** The records of one ZIP against the names seen before. */
  method CheckNames(traces: seq<Trace>, i: nat, seen0: map<string, nat>) returns (seen: map<string, nat>, error: Option<MergeError>)
    requires i < |traces| && SeenUpTo(traces, seen0, i)
    ensures error.None? ==> SeenUpTo(traces, seen, i + 1)
    ensures error.Some? ==> error.value.SharedPdf? && IsShared(traces, error.value.name, error.value.i, error.value.j)
  {
    seen, error := seen0, None;
    var records := traces[i];
    for k := 0 to |records|
      invariant SeenUpTo(traces, seen, i) && AllSeen(seen, records[..k], i)
    {
      var pdf := records[k].pdfFilename;
      assert Names(records, pdf);
      if pdf != "" {
        if pdf in seen && seen[pdf] != i { return seen, Some(SharedPdf(pdf, seen[pdf], i)); }
        if pdf !in seen {
          seen := seen[pdf := i];
        }
      }
    }
    assert records[..|records|] == records;
  }

  predicate IsShared(traces: seq<Trace>, pdf: string, i: nat, j: nat) {
    pdf != "" && i < |traces| && j < |traces| && i != j && Names(traces[i], pdf) && Names(traces[j], pdf)
  }

  lemma SharedIsShared(traces: seq<Trace>, pdf: string, i: nat, j: nat)
    requires IsShared(traces, pdf, i, j)
    ensures !NoSharedPdf(traces)
  {
  }

  /** The loop over the ZIPs. */
  method Collect(traces: seq<Trace>) returns (records: Trace, error: Option<MergeError>)
    ensures error.None? <==> NoSharedPdf(traces)
    ensures error.None? ==> records == Concat(traces)
    ensures error.Some? ==> error.value.SharedPdf? && IsShared(traces, error.value.name, error.value.i, error.value.j)
  {
    var seen: map<string, nat> := map[];
    records, error := [], None;
    for i := 0 to |traces|
      invariant records == Concat(traces[..i]) && SeenUpTo(traces, seen, i)
    {
      assert traces[..i + 1][..i] == traces[..i];
      seen, error := CheckNames(traces, i, seen);
      if error.Some? {
        SharedIsShared(traces, error.value.name, error.value.i, error.value.j);
        return;
      }
      records := records + traces[i];
    }
    assert traces[..|traces|] == traces;
    error := None;
    SeenOnce(traces, seen);
  }

  lemma SeenOnce(traces: seq<Trace>, seen: map<string, nat>)
    requires SeenUpTo(traces, seen, |traces|)
    ensures NoSharedPdf(traces)
  {
  }

  /** mergeMaggioliCsv: succeeds exactly when formats and headers agree and no two ZIPs share a PDF, and
      then gives all the records in order; otherwise it names the first archive out of place, or two that
      really share the PDF. */
  method MergeMaggioliCsv(locate: string -> Place, zips: seq<Zip>) returns (r: Merge)
    requires zips != []
    ensures r.Merged? <==> SameFormat(zips) && SameHeaders(zips) && NoSharedPdf(Parsed(locate, zips))
    ensures r.Merged? ==> r == Merged(AllRecords(locate, zips), MergedText(zips))
    ensures r.Refused? && !r.error.SharedPdf? ==> Incompatible(zips, r.error)
    ensures r.Refused? && r.error.SharedPdf? ==>
      SameFormat(zips) && SameHeaders(zips) && IsShared(Parsed(locate, zips), r.error.name, r.error.i, r.error.j)
  {
    var error := CheckCompatible(zips);
    if error.Some? { return Refused(error.value); }
    var records;
    records, error := Collect(Parsed(locate, zips));
    if error.Some? { return Refused(error.value); }
    ConcatIs(Parsed(locate, zips), zips, Reading(locate));
    r := Merged(records, MergedText(zips));
  }

  lemma {:induction false} ConcatIs(traces: seq<Trace>, zips: seq<Zip>, read: Zip -> seq<MaggioliRecord>)
    requires |traces| == |zips| && forall i :: 0 <= i < |zips| ==> traces[i] == read(zips[i])
    ensures Concat(traces) == Collected(zips, read)
  {
    if zips != [] {
      ConcatIs(traces[..|zips| - 1], zips[..|zips| - 1], read);
    }
  }

  // ------------------------------------------------------------- the merged text reads the same

  lemma {:induction false} JoinLast(parts: seq<string>, last: string)
    requires parts != []
    ensures Join(parts + [last], '\n') == Join(parts, '\n') + "\n" + last
  {
    JoinAppend(parts, last, '\n');
  }

  /** Reading the merged rubrica gives the merged records. */
  lemma {:induction false} RubricaMerged(locate: string -> Place, zips: seq<Zip>)
    requires zips != [] && forall i :: 0 <= i < |zips| ==> zips[i].format == Some(RubricaCsv)
    ensures Rubrica(Join(Texts(zips), '\n')) == AllRecords(locate, zips)
  {
    var n := |zips| - 1;
    RubricaOf(locate, zips[n]);
    if n == 0 {
      assert Texts(zips) == [zips[0].text];
      assert AllRecords(locate, zips[..0]) == [];
    } else {
      RubricaMerged(locate, zips[..n]);
      JoinedTexts(zips);
      RubricaJoined(Join(Texts(zips[..n]), '\n'), zips[n].text);
    }
  }

  lemma RubricaOf(locate: string -> Place, z: Zip)
    requires z.format == Some(RubricaCsv)
    ensures Records(locate, z) == Rubrica(z.text)
  {
  }

  lemma JoinedTexts(zips: seq<Zip>)
    requires |zips| > 1
    ensures var n := |zips| - 1; Join(Texts(zips), '\n') == Join(Texts(zips[..n]), '\n') + "\n" + zips[n].text
  {
    var n := |zips| - 1;
    assert Texts(zips) == Texts(zips[..n]) + [zips[n].text];
    JoinLast(Texts(zips[..n]), zips[n].text);
  }

  lemma LinesHaveNoBreak(text: string)
    ensures forall k :: 0 <= k < |SplitLines(text)| ==> '\n' !in SplitLines(text)[k]
  {
    SplitHasNoSeparator(text, '\n');
    var lines := Split(text, '\n');
    forall k | 0 <= k < |lines| ensures '\n' !in DropCr(lines[k]) {
      assert lines[k] in lines;
    }
  }

  lemma {:induction false} RestsHaveNoBreak(zips: seq<Zip>)
    ensures forall k :: 0 <= k < |Rests(zips)| ==> '\n' !in Rests(zips)[k]
  {
    if zips != [] {
      RestsHaveNoBreak(zips[..|zips| - 1]);
      LinesHaveNoBreak(zips[|zips| - 1].text);
    }
  }

  /** The rows of a ZIP but its header. */
  function RestReading(read: string -> MaggioliRecord): Zip -> seq<MaggioliRecord> {
    (z: Zip) => PagRows(read, NonBlank(SplitLines(z.text)[1..]))
  }

  lemma {:induction false} RestsAreRows(read: string -> MaggioliRecord, zips: seq<Zip>)
    ensures PagRows(read, NonBlank(Rests(zips))) == Collected(zips, RestReading(read))
  {
    if zips != [] {
      var n := |zips| - 1;
      var rest := SplitLines(zips[n].text)[1..];
      RestsAreRows(read, zips[..n]);
      NonBlankAppend(Rests(zips[..n]), rest);
      PagRowsAppend(read, NonBlank(Rests(zips[..n])), NonBlank(rest));
    }
  }

  lemma ZipRows(locate: string -> Place, z: Zip, header: string)
    requires Trim(header) != "" && z.format == Some(PagIndiceCsv) && FirstLine(z) == header
    ensures Records(locate, z) == PagRows(Reader(locate, Cells(header)), NonBlank(SplitLines(z.text)[1..]))
  {
    assert Records(locate, z) == PagLines(locate, SplitLines(z.text));
    HeadOn(SplitLines(z.text), header);
    PagLinesAfter(locate, header, SplitLines(z.text)[1..]);
  }

  lemma HeadOn(lines: seq<string>, header: string)
    requires lines != [] && lines[0] == header
    ensures lines == [header] + lines[1..]
  {
  }

  lemma RestsRead(locate: string -> Place, zips: seq<Zip>, header: string)
    requires Trim(header) != ""
    requires forall i :: 0 <= i < |zips| ==> zips[i].format == Some(PagIndiceCsv) && FirstLine(zips[i]) == header
    ensures Collected(zips, RestReading(Reader(locate, Cells(header)))) == AllRecords(locate, zips)
  {
    var f, g := RestReading(Reader(locate, Cells(header))), Reading(locate);
    forall i | 0 <= i < |zips| ensures f(zips[i]) == g(zips[i]) {
      ZipRows(locate, zips[i], header);
    }
    CollectedSame(zips, f, g);
  }

  /** Reading the merged pag_indice gives the merged records, when the ZIPs begin with the same line and
      it is not blank. */
  lemma PagIndiceMerged(locate: string -> Place, zips: seq<Zip>)
    requires zips != [] && Trim(FirstLine(zips[0])) != ""
    requires forall i :: 0 <= i < |zips| ==> zips[i].format == Some(PagIndiceCsv) && FirstLine(zips[i]) == FirstLine(zips[0])
    ensures PagIndice(locate, MergedText(zips)) == AllRecords(locate, zips)
  {
    var text, lines := MergedText(zips), [FirstLine(zips[0])] + Rests(zips);
    MergedLines(zips);
    PagLinesSame(locate, SplitLines(text), lines);
    PagLinesAfter(locate, FirstLine(zips[0]), Rests(zips));
    RestsAreRows(Reader(locate, Cells(FirstLine(zips[0]))), zips);
    RestsRead(locate, zips, FirstLine(zips[0]));
  }

  lemma MergedLines(zips: seq<Zip>)
    requires zips != [] && zips[0].format == Some(PagIndiceCsv)
    ensures SameButCr(SplitLines(MergedText(zips)), [FirstLine(zips[0])] + Rests(zips))
  {
    var lines := [FirstLine(zips[0])] + Rests(zips);
    LinesHaveNoBreak(zips[0].text);
    RestsHaveNoBreak(zips);
    forall p | p in lines ensures '\n' !in p {
      var i :| 0 <= i < |lines| && lines[i] == p;
    }
    SplitJoin(lines, '\n');
    DropCrsSame(lines);
  }

  lemma DropCrsSame(lines: seq<string>)
    requires lines != []
    ensures SameButCr(DropCrs(lines), lines)
  {
  }
}
