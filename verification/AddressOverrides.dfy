/** Operator corrections and how they are laid over extracted rows, plus the
    "regenerate CSV" action that re-applies them to a finished file. */
module AddressOverrides {
  import opened Text
  import opened EnrichedCsv

  /** A stored correction. `extraFields` is empty where the column is NULL. */
  datatype Override = Override(
    pdfFilename: string,
    indirizzo: Option<string>, cap: Option<string>, comune: Option<string>,
    provincia: Option<string>, statoEstero: Option<string>,
    extraFields: map<string, string>)

  const TYPED: set<string> := {"indirizzo", "cap", "comune", "provincia", "stato_estero"}

  function Get(m: map<string, string>, k: string): Option<string> {
    if k in m then Some(m[k]) else None
  }

  function Assign(row: Row, k: string, v: Option<string>): Row {
    if v.Some? then row[k := v.value] else row - {k}
  }

  function OrElse(a: Option<string>, b: Option<string>): Option<string> {
    if a.Some? then a else b
  }

  /** The five address columns written one after the other over a row. */
  function AddressColumns(row: Row, indirizzo: Option<string>, cap: Option<string>, comune: Option<string>,
      provincia: Option<string>, statoEstero: Option<string>): Row {
    Assign(Assign(Assign(Assign(Assign(row,
      "indirizzo", indirizzo), "cap", cap), "comune", comune), "provincia", provincia), "stato_estero", statoEstero)
  }

  /** The object spread of applyOverrides: row, then extra fields, then the five address columns
      (`??` falls back on the row as it was before the extra fields). */
  function Patch(row: Row, o: Override): Row {
    AddressColumns(row + o.extraFields,
      OrElse(o.indirizzo, Get(row, "indirizzo")), OrElse(o.cap, Get(row, "cap")),
      OrElse(o.comune, Get(row, "comune")), OrElse(o.provincia, Get(row, "provincia")),
      OrElse(o.statoEstero, Get(row, "stato_estero")))
  }

  /** `new Map(overrides.map(o => [o.pdfFilename, o]))`: the last entry of a name wins. */
  function Lookup(os: seq<Override>, pdf: string): Option<Override> {
    if os == [] then None
    else if os[|os| - 1].pdfFilename == pdf then Some(os[|os| - 1])
    else Lookup(os[..|os| - 1], pdf)
  }

  /** The file name a row is matched on; an empty name is falsy and never matched. */
  function KeyOf(row: Row): string {
    Cell(row, "allegato")
  }

  function ApplyRow(row: Row, os: seq<Override>): Row {
    if KeyOf(row) == "" || Lookup(os, KeyOf(row)) == None then row
    else Patch(row, Lookup(os, KeyOf(row)).value)
  }

  function ApplyOverrides(rows: seq<Row>, os: seq<Override>): (r: seq<Row>)
    ensures |r| == |rows|
    ensures forall i :: 0 <= i < |rows| ==> r[i] == ApplyRow(rows[i], os)
  {
    if rows == [] then [] else [ApplyRow(rows[0], os)] + ApplyOverrides(rows[1..], os)
  }

  /** What saveRowOverride stores for the columns an operator sent: the five address columns
      typed, the identity column and prototype names dropped, the rest passed through. */
  function SavedOverride(pdf: string, fields: map<string, string>): Override {
    Override(pdf, Get(fields, "indirizzo"), Get(fields, "cap"), Get(fields, "comune"),
      Get(fields, "provincia"), Get(fields, "stato_estero"),
      fields - TYPED - {"allegato", "__proto__", "constructor", "prototype"})
  }

  /** The identity column is never part of a stored correction. */
  predicate KeepsKey(os: seq<Override>) {
    forall o :: o in os ==> "allegato" !in o.extraFields
  }

  lemma SavedOverrideKeepsKey(pdf: string, fields: map<string, string>)
    ensures KeepsKey([SavedOverride(pdf, fields)])
  {
  }

  // ------------------------------------------------- one flat map of corrections

  /** All columns a correction actually sets. */
  function Fields(o: Override): map<string, string> {
    AddressColumns(o.extraFields, o.indirizzo, o.cap, o.comune, o.provincia, o.statoEstero)
  }

  function FieldsFor(os: seq<Override>, pdf: string): map<string, string> {
    if pdf == "" || Lookup(os, pdf) == None then map[] else Fields(Lookup(os, pdf).value)
  }

  lemma SavedFieldAt(pdf: string, fields: map<string, string>, k: string)
    ensures Get(Fields(SavedOverride(pdf, fields)), k)
      == if k in {"allegato", "__proto__", "constructor", "prototype"} then None else Get(fields, k)
  {
    var o := SavedOverride(pdf, fields);
    AddressColumnsAt(o.extraFields, o.indirizzo, o.cap, o.comune, o.provincia, o.statoEstero, k);
  }

  /** A stored correction sets exactly the columns the operator sent, each to the value sent, but for the identity
      of the row and names of the JavaScript prototype. */
  lemma SavedFields(pdf: string, fields: map<string, string>)
    ensures Fields(SavedOverride(pdf, fields)) == fields - {"allegato", "__proto__", "constructor", "prototype"}
  {
    var kept := fields - {"allegato", "__proto__", "constructor", "prototype"};
    forall k ensures Get(Fields(SavedOverride(pdf, fields)), k) == Get(kept, k) {
      SavedFieldAt(pdf, fields, k);
    }
    SameByKey(Fields(SavedOverride(pdf, fields)), kept);
  }

  /** The corrections are as before but for the PDF's, which are the columns sent. */
  ghost predicate Replaces(before: seq<Override>, after: seq<Override>, pdf: string, fields: map<string, string>) {
    && (pdf != "" ==> FieldsFor(after, pdf) == fields - {"allegato", "__proto__", "constructor", "prototype"})
    && (forall other :: other != pdf ==> FieldsFor(after, other) == FieldsFor(before, other))
  }

  lemma SavedReplaces(os: seq<Override>, pdf: string, fields: map<string, string>)
    ensures Replaces(os, os + [SavedOverride(pdf, fields)], pdf, fields)
  {
    SavedFields(pdf, fields);
    assert (os + [SavedOverride(pdf, fields)])[..|os|] == os;
  }

  /** The value of a column after the five address columns were written. */
  function AddressAt(k: string, indirizzo: Option<string>, cap: Option<string>, comune: Option<string>,
      provincia: Option<string>, statoEstero: Option<string>, otherwise: Option<string>): Option<string> {
    if k == "stato_estero" then statoEstero
    else if k == "provincia" then provincia
    else if k == "comune" then comune
    else if k == "cap" then cap
    else if k == "indirizzo" then indirizzo
    else otherwise
  }

  lemma AddressColumnsAt(row: Row, a: Option<string>, b: Option<string>, c: Option<string>,
      d: Option<string>, e: Option<string>, k: string)
    ensures Get(AddressColumns(row, a, b, c, d, e), k) == AddressAt(k, a, b, c, d, e, Get(row, k))
  {
  }

  lemma PatchAt(row: Row, o: Override, k: string)
    ensures Get(Patch(row, o), k) == OrElse(Get(Fields(o), k), Get(row, k))
  {
    AddressColumnsAt(o.extraFields, o.indirizzo, o.cap, o.comune, o.provincia, o.statoEstero, k);
    AddressColumnsAt(row + o.extraFields,
      OrElse(o.indirizzo, Get(row, "indirizzo")), OrElse(o.cap, Get(row, "cap")),
      OrElse(o.comune, Get(row, "comune")), OrElse(o.provincia, Get(row, "provincia")),
      OrElse(o.statoEstero, Get(row, "stato_estero")), k);
    assert Get(row + o.extraFields, k) == OrElse(Get(o.extraFields, k), Get(row, k));
  }

  lemma SameByKey(a: map<string, string>, b: map<string, string>)
    requires forall k :: Get(a, k) == Get(b, k)
    ensures a == b
  {
    forall k ensures k in a <==> k in b { assert Get(a, k) == Get(b, k); }
    forall k | k in a ensures a[k] == b[k] { assert Get(a, k) == Get(b, k); }
  }

  /** Despite the order of its spreads, a patch is one map laid over the row. */
  lemma PatchIsOverlay(row: Row, o: Override)
    ensures Patch(row, o) == row + Fields(o)
  {
    forall k ensures Get(Patch(row, o), k) == Get(row + Fields(o), k) {
      PatchAt(row, o, k);
      assert Get(row + Fields(o), k) == OrElse(Get(Fields(o), k), Get(row, k));
    }
    SameByKey(Patch(row, o), row + Fields(o));
  }

  lemma ApplyRowIsOverlay(row: Row, os: seq<Override>)
    ensures ApplyRow(row, os) == row + FieldsFor(os, KeyOf(row))
  {
    if KeyOf(row) != "" && Lookup(os, KeyOf(row)).Some? {
      PatchIsOverlay(row, Lookup(os, KeyOf(row)).value);
    } else {
      assert row + map[] == row;
    }
  }

  lemma {:induction false} LookupFound(os: seq<Override>, pdf: string)
    requires Lookup(os, pdf).Some?
    ensures Lookup(os, pdf).value in os && Lookup(os, pdf).value.pdfFilename == pdf
  {
    if os[|os| - 1].pdfFilename != pdf {
      LookupFound(os[..|os| - 1], pdf);
    }
  }

  lemma FieldsKeepKey(os: seq<Override>, pdf: string)
    requires KeepsKey(os)
    ensures "allegato" !in FieldsFor(os, pdf)
  {
    if pdf != "" && Lookup(os, pdf).Some? {
      LookupFound(os, pdf);
    }
  }

  lemma ApplyKeepsKey(row: Row, os: seq<Override>)
    requires KeepsKey(os)
    ensures KeyOf(ApplyRow(row, os)) == KeyOf(row)
  {
    ApplyRowIsOverlay(row, os);
    FieldsKeepKey(os, KeyOf(row));
  }

  // ------------------------------------------------- corrections that change over time

  /** Every column set for a file by the earlier corrections is still set by the later ones. */
  ghost predicate Covers(earlier: seq<Override>, later: seq<Override>) {
    forall pdf :: FieldsFor(earlier, pdf).Keys <= FieldsFor(later, pdf).Keys
  }

  lemma CoversReflexive(os: seq<Override>)
    ensures Covers(os, os)
  {
  }

  lemma CoversTransitive(a: seq<Override>, b: seq<Override>, c: seq<Override>)
    requires Covers(a, b) && Covers(b, c)
    ensures Covers(a, c)
  {
  }

  lemma OverlayTwice(row: Row, f: map<string, string>, g: map<string, string>)
    requires f.Keys <= g.Keys
    ensures row + f + g == row + g
  {
  }

  lemma AbsorbRow(row: Row, earlier: seq<Override>, later: seq<Override>)
    requires KeepsKey(earlier) && Covers(earlier, later)
    ensures ApplyRow(ApplyRow(row, earlier), later) == ApplyRow(row, later)
  {
    var key := KeyOf(row);
    ApplyKeepsKey(row, earlier);
    ApplyRowIsOverlay(row, earlier);
    ApplyRowIsOverlay(ApplyRow(row, earlier), later);
    ApplyRowIsOverlay(row, later);
    OverlayTwice(row, FieldsFor(earlier, key), FieldsFor(later, key));
  }

  /** A row already patched by earlier corrections and patched again ends as if patched once,
      for every row, exactly when the later corrections cover the earlier ones. */
  lemma AbsorbIff(earlier: seq<Override>, later: seq<Override>)
    requires KeepsKey(earlier)
    ensures (forall row :: ApplyRow(ApplyRow(row, earlier), later) == ApplyRow(row, later))
      <==> Covers(earlier, later)
  {
    if Covers(earlier, later) {
      forall row ensures ApplyRow(ApplyRow(row, earlier), later) == ApplyRow(row, later) {
        AbsorbRow(row, earlier, later);
      }
    } else {
      var pdf :| !(FieldsFor(earlier, pdf).Keys <= FieldsFor(later, pdf).Keys);
      var k :| k in FieldsFor(earlier, pdf).Keys && k !in FieldsFor(later, pdf).Keys;
      var row: Row := map["allegato" := pdf];
      assert KeyOf(row) == pdf;
      FieldsKeepKey(earlier, pdf);
      ApplyKeepsKey(row, earlier);
      ApplyRowIsOverlay(row, earlier);
      ApplyRowIsOverlay(ApplyRow(row, earlier), later);
      ApplyRowIsOverlay(row, later);
      assert k in ApplyRow(ApplyRow(row, earlier), later) && k !in ApplyRow(row, later);
      assert ApplyRow(ApplyRow(row, earlier), later) != ApplyRow(row, later);
    }
  }

  /** Applying the same corrections twice is applying them once. */
  lemma ApplyIdempotent(rows: seq<Row>, os: seq<Override>)
    requires KeepsKey(os)
    ensures ApplyOverrides(ApplyOverrides(rows, os), os) == ApplyOverrides(rows, os)
  {
    forall i | 0 <= i < |rows|
      ensures ApplyOverrides(ApplyOverrides(rows, os), os)[i] == ApplyOverrides(rows, os)[i]
    {
      AbsorbRow(rows[i], os, os);
    }
  }

  // ------------------------------------------------- regenerate

  /** regenerateCsv on the file content: read, patch, print under the headers read. */
  method RegenerateCsv(content: string, os: seq<Override>) returns (r: string)
    ensures r == Regenerated(content, os)
    ensures Parse(content).headers != [] ==>
      var p, q := Parse(content), Parse(r);
      && q.headers == p.headers && |q.rows| == |p.rows|
      && forall i :: 0 <= i < |p.rows| ==> CorrectedFrom(q.rows[i], p.rows[i], FieldsFor(os, KeyOf(p.rows[i])), p.headers)
    ensures KeepsKey(os) ==> (Regenerated(r, os) == r <==> Parse(content).headers != [] || Parse(content).rows == [])
  {
    if Parse(content).headers != [] {
      RegeneratedReads(content, os);
    }
    if KeepsKey(os) {
      RegenerateTwice(content, os);
    }

    var p := ParseEnrichedCsv(content);
    r := BuildEnrichedCsv(p.headers, ApplyOverrides(p.rows, os));
  }

  function Regenerated(content: string, os: seq<Override>): string {
    var p := Parse(content);
    Csv(p.headers, ApplyOverrides(p.rows, os))
  }

  lemma {:induction false} NonEmptySubset(lines: seq<string>)
    ensures forall l :: l in NonEmpty(lines) ==> l in lines
  {
    if lines != [] {
      NonEmptySubset(lines[1..]);
    }
  }

  lemma {:induction false} RowOfNoBreak(headers: seq<string>, cells: seq<string>)
    requires NoBreak(cells)
    ensures RowNoBreak(RowOf(headers, cells))
  {
    if headers != [] {
      RowOfNoBreak(headers[..|headers| - 1], cells);
    }
  }

  predicate RowNoBreak(row: Row) {
    forall h :: h in row ==> '\n' !in row[h]
  }

  predicate HasColumns(row: Row, headers: seq<string>) {
    row.Keys == set h | h in headers
  }

  /** Whatever the file holds, what is read from it holds no line break. */
  lemma ParsedNoBreak(content: string)
    ensures NoBreak(Parse(content).headers)
    ensures forall i :: 0 <= i < |Parse(content).rows| ==> RowNoBreak(Parse(content).rows[i])
    ensures forall i :: 0 <= i < |Parse(content).rows| ==> HasColumns(Parse(content).rows[i], Parse(content).headers)
  {
    var all := Split(content, '\n');
    var lines := NonEmpty(all);
    SplitHasNoSeparator(content, '\n');
    NonEmptySubset(all);
    var p := Parse(content);
    forall i | 0 <= i < |p.rows| ensures RowNoBreak(p.rows[i]) && HasColumns(p.rows[i], p.headers) {
      assert lines[1..][i] in lines;
      RowOfNoBreak(p.headers, ParseLine(lines[1..][i]));
    }
  }

  lemma CollapseIdempotent(s: string)
    ensures CollapseBreaks(CollapseBreaks(s)) == CollapseBreaks(s)
  {
  }

  /** A row read back under the file's headers and patched again prints the same cells. */
  lemma RegeneratedCell(headers: seq<string>, row: Row, os: seq<Override>, h: string)
    requires KeepsKey(os) && NoBreak(headers) && h in headers
    requires RowNoBreak(row) && HasColumns(row, headers)
    ensures CollapseBreaks(Cell(ApplyRow(ReadBack(headers, ApplyRow(row, os)), os), h))
      == CollapseBreaks(Cell(ApplyRow(row, os), h))
  {
    var patched := ApplyRow(row, os);
    var back := ReadBack(headers, patched);
    var key := KeyOf(row);
    ReadBackCell(headers, patched, h);
    ApplyKeepsKey(row, os);
    assert KeyOf(back) == key by {
      if "allegato" in headers {
        ReadBackCell(headers, patched, "allegato");
      }
    }
    ApplyRowIsOverlay(row, os);
    ApplyRowIsOverlay(back, os);
    CollapseIdempotent(Cell(patched, h));
  }

  lemma {:induction false} SameCellsSameLine(headers: seq<string>, a: Row, b: Row)
    requires forall h :: h in headers ==> CollapseBreaks(Cell(a, h)) == CollapseBreaks(Cell(b, h))
    ensures Quoted(Cells(headers, a)) == Quoted(Cells(headers, b))
  {
  }

  lemma {:induction false} SameLinesSameCsv(headers: seq<string>, xs: seq<Row>, ys: seq<Row>)
    requires |xs| == |ys|
    requires forall i :: 0 <= i < |xs| ==> Quoted(Cells(headers, xs[i])) == Quoted(Cells(headers, ys[i]))
    ensures Lines(headers, xs) == Lines(headers, ys)
  {
    if xs != [] {
      SameLinesSameCsv(headers, xs[..|xs| - 1], ys[..|ys| - 1]);
    }
  }

  lemma RegeneratedLine(headers: seq<string>, row: Row, os: seq<Override>)
    requires KeepsKey(os) && NoBreak(headers)
    requires RowNoBreak(row) && HasColumns(row, headers)
    ensures Quoted(Cells(headers, ApplyRow(ReadBack(headers, ApplyRow(row, os)), os)))
      == Quoted(Cells(headers, ApplyRow(row, os)))
  {
    var patched, again := ApplyRow(row, os), ApplyRow(ReadBack(headers, ApplyRow(row, os)), os);
    forall h | h in headers ensures CollapseBreaks(Cell(again, h)) == CollapseBreaks(Cell(patched, h)) {
      RegeneratedCell(headers, row, os, h);
    }
    SameCellsSameLine(headers, again, patched);
  }

  lemma RegeneratedLines(headers: seq<string>, rows: seq<Row>, back: seq<Row>, os: seq<Override>)
    requires KeepsKey(os) && NoBreak(headers) && |back| == |rows|
    requires forall i :: 0 <= i < |rows| ==> RowNoBreak(rows[i]) && HasColumns(rows[i], headers)
    requires forall i :: 0 <= i < |rows| ==> back[i] == ReadBack(headers, ApplyRow(rows[i], os))
    ensures Lines(headers, ApplyOverrides(back, os)) == Lines(headers, ApplyOverrides(rows, os))
  {
    forall i | 0 <= i < |rows|
      ensures Quoted(Cells(headers, ApplyOverrides(back, os)[i])) == Quoted(Cells(headers, ApplyOverrides(rows, os)[i]))
    {
      RegeneratedLine(headers, rows[i], os);
    }
    SameLinesSameCsv(headers, ApplyOverrides(back, os), ApplyOverrides(rows, os));
  }

  lemma RegenerateParsed(headers: seq<string>, rows: seq<Row>, os: seq<Override>)
    requires KeepsKey(os) && headers != [] && NoBreak(headers)
    requires forall i :: 0 <= i < |rows| ==> RowNoBreak(rows[i]) && HasColumns(rows[i], headers)
    ensures Regenerated(Csv(headers, ApplyOverrides(rows, os)), os) == Csv(headers, ApplyOverrides(rows, os))
  {
    ReadAgain(headers, rows, os);
    RegeneratedLines(headers, rows, Parse(Csv(headers, ApplyOverrides(rows, os))).rows, os);
  }

  /** Reading a printed file whose rows were corrected. */
  lemma ReadAgain(headers: seq<string>, rows: seq<Row>, os: seq<Override>)
    requires headers != [] && NoBreak(headers)
    ensures var p := Parse(Csv(headers, ApplyOverrides(rows, os)));
      && p.headers == headers && |p.rows| == |rows|
      && forall i :: 0 <= i < |rows| ==> p.rows[i] == ReadBack(headers, ApplyRow(rows[i], os))
  {
    var patched := ApplyOverrides(rows, os);
    PlainHeaders(headers);
    ReadAs(headers, patched, Parse(Csv(headers, patched)));
    assert forall i :: 0 <= i < |rows| ==> patched[i] == ApplyRow(rows[i], os);
  }

  lemma PlainHeaders(headers: seq<string>)
    requires NoBreak(headers)
    ensures Collapsed(headers) == headers
  {
  }

  lemma ReadAs(headers: seq<string>, rows: seq<Row>, p: Parsed)
    requires headers != [] && Collapsed(headers) == headers && p == Parse(Csv(headers, rows))
    ensures p.headers == headers && |p.rows| == |rows|
    ensures forall i :: 0 <= i < |rows| ==> p.rows[i] == ReadBack(headers, rows[i])
  {
    RoundTrip(headers, rows);
  }

  /** Under the given columns a row holds its corrections, line breaks made spaces, and else what it held. */
  predicate CorrectedFrom(now: Row, was: Row, fields: map<string, string>, headers: seq<string>) {
    forall h :: h in headers ==>
      h in now && h in was && now[h] == if h in fields then CollapseBreaks(fields[h]) else was[h]
  }

  lemma RegeneratedReads(content: string, os: seq<Override>)
    requires Parse(content).headers != []
    ensures var p, q := Parse(content), Parse(Regenerated(content, os));
      && q.headers == p.headers && |q.rows| == |p.rows|
      && forall i :: 0 <= i < |p.rows| ==> CorrectedFrom(q.rows[i], p.rows[i], FieldsFor(os, KeyOf(p.rows[i])), p.headers)
  {
    var p, q := Parse(content), Parse(Regenerated(content, os));
    ParsedNoBreak(content);
    ReadAgain(p.headers, p.rows, os);
    forall i | 0 <= i < |p.rows| ensures CorrectedFrom(q.rows[i], p.rows[i], FieldsFor(os, KeyOf(p.rows[i])), p.headers) {
      RowCorrected(p.headers, p.rows[i], os);
    }
  }

  lemma RowCorrected(headers: seq<string>, row: Row, os: seq<Override>)
    requires NoBreak(headers) && RowNoBreak(row) && HasColumns(row, headers)
    ensures CorrectedFrom(ReadBack(headers, ApplyRow(row, os)), row, FieldsFor(os, KeyOf(row)), headers)
  {
    var now := ReadBack(headers, ApplyRow(row, os));
    ApplyRowIsOverlay(row, os);
    forall h | h in headers
      ensures h in now && h in row && now[h] == if h in FieldsFor(os, KeyOf(row)) then CollapseBreaks(FieldsFor(os, KeyOf(row))[h]) else row[h]
    {
      ReadBackCell(headers, ApplyRow(row, os), h);
      assert h in row.Keys;
    }
  }

  /** Regenerating a file twice yields the same bytes as regenerating it once: for any content
      whatever with a header line, and otherwise only when there was no row to lose. */
  lemma RegenerateTwice(content: string, os: seq<Override>)
    requires KeepsKey(os)
    ensures Regenerated(Regenerated(content, os), os) == Regenerated(content, os)
      <==> Parse(content).headers != [] || Parse(content).rows == []
  {
    var p := Parse(content);
    if p.headers != [] {
      ParsedNoBreak(content);
      RegenerateParsed(p.headers, p.rows, os);
    } else {
      var patched := ApplyOverrides(p.rows, os);
      NoHeaderNoRows(patched);
      NoHeaderBytes(patched);
      NoHeaderBytes([]);
      assert Regenerated(Csv([], patched), os) == Csv([], []);
    }
  }

  /** Without headers a file of n rows is n line breaks. */
  lemma {:induction false} NoHeaderBytes(rows: seq<Row>)
    ensures |Csv([], rows)| == |rows|
  {
    if rows != [] {
      var n := |rows| - 1;
      NoHeaderBytes(rows[..n]);
      JoinAppend(Lines([], rows[..n]), Line(Cells([], rows[n])), '\n');
    }
  }

  lemma NoHeaderNoRows(rows: seq<Row>)
    ensures Parse(Csv([], rows)) == Parsed([], [])
  {
    SplitCsv([], rows);
    var lines := Lines([], rows);
    forall i | 0 <= i < |lines| ensures lines[i] == [] {
      if i > 0 { assert lines[i] == Line(Cells([], rows[i - 1])); }
      LineHasNoBreak([]);
    }
  }
}
