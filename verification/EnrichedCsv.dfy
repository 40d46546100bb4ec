/** The enriched CSV: every cell quoted, `;` between cells, `\n` between lines, and a
    number of instalment columns that depends on the job. */
module EnrichedCsv {
  import opened Text

  /** A row object; a column whose value is `undefined` is an absent key. */
  type Row = map<string, string>

  datatype Parsed = Parsed(headers: seq<string>, rows: seq<Row>)

  const BASE_CSV_HEADERS: seq<string> := [
    "codice_fiscale", "nominativo", "tipo", "pec", "indirizzo", "cap", "comune", "provincia",
    "stato_estero", "allegato", "numero_avviso", "numero_avviso_alternativo", "importo",
    "scadenza", "numero_provvedimento", "data_emissione", "oggetto", "external_id"]

  // ---------------------------------------------------------------- headers

  function RateHeaders(i: nat): seq<string> {
    [RateKey(i, "_numero_avviso"), RateKey(i, "_importo"), RateKey(i, "_scadenza")]
  }

  function RateKey(i: nat, field: string): string {
    "rata" + Decimal(i) + field
  }

  /** The instalment columns of instalments 1 to maxRate, in order. */
  function RateColumns(maxRate: nat): seq<string> {
    if maxRate == 0 then [] else RateColumns(maxRate - 1) + RateHeaders(maxRate)
  }

  function Headers(maxRate: nat): seq<string> {
    BASE_CSV_HEADERS + RateColumns(maxRate)
  }

  predicate Distinct(xs: seq<string>) {
    forall i, j :: 0 <= i < j < |xs| ==> xs[i] != xs[j]
  }

  method BuildEnrichedCsvHeaders(maxRate: nat) returns (headers: seq<string>)
    ensures headers == Headers(maxRate)
  {
    headers := BASE_CSV_HEADERS;
    for i := 1 to maxRate + 1
      invariant headers == BASE_CSV_HEADERS + RateColumns(i - 1)
    {
      headers := headers + [RateKey(i, "_numero_avviso"), RateKey(i, "_importo"), RateKey(i, "_scadenza")];
    }
  }

  /** An instalment column name determines its number and its field. */
  lemma RateKeyInjective(i: nat, f: string, j: nat, g: string)
    requires |f| > 0 && |g| > 0 && f[0] == '_' && g[0] == '_'
    requires RateKey(i, f) == RateKey(j, g)
    ensures i == j && f == g
  {
    assert RateKey(i, f)[4..] == Decimal(i) + f && RateKey(j, g)[4..] == Decimal(j) + g;
    NumeralThenField(Decimal(i), f, Decimal(j), g);
    DecimalInjective(i, j);
  }

  lemma {:induction false} NumeralThenField(d: string, f: string, e: string, g: string)
    requires '_' !in d && '_' !in e
    requires |f| > 0 && |g| > 0 && f[0] == '_' && g[0] == '_'
    requires d + f == e + g
    ensures d == e && f == g
  {
    assert (d + f)[0] == if d == [] then f[0] else d[0];
    assert (e + g)[0] == if e == [] then g[0] else e[0];
    if d == [] && e == [] {
      assert d + f == f && e + g == g;
    } else if d != [] && e != [] {
      assert (d + f)[1..] == d[1..] + f && (e + g)[1..] == e[1..] + g;
      NumeralThenField(d[1..], f, e[1..], g);
    }
  }

  predicate IsRateField(f: string) {
    f == "_numero_avviso" || f == "_importo" || f == "_scadenza"
  }

  ghost predicate IsRateKey(h: string, maxRate: nat) {
    exists i: nat, f :: 1 <= i <= maxRate && IsRateField(f) && h == RateKey(i, f)
  }

  lemma {:induction false} RateColumnsAre(maxRate: nat, h: string)
    ensures h in RateColumns(maxRate) <==> IsRateKey(h, maxRate)
  {
    if maxRate > 0 {
      RateColumnsAre(maxRate - 1, h);
      var last := RateHeaders(maxRate);
      if h in last {
        var f := if h == last[0] then "_numero_avviso" else if h == last[1] then "_importo" else "_scadenza";
        assert IsRateField(f) && h == RateKey(maxRate, f);
      }
      if IsRateKey(h, maxRate) && !IsRateKey(h, maxRate - 1) {
        var i: nat, f :| 1 <= i <= maxRate && IsRateField(f) && h == RateKey(i, f);
        assert i == maxRate;
        assert h == last[0] || h == last[1] || h == last[2];
      }
    }
  }

  lemma RateKeyNotBase(i: nat, f: string)
    ensures RateKey(i, f) !in BASE_CSV_HEADERS
  {
    var k := RateKey(i, f);
    assert k[0] == 'r';
    forall h | h in BASE_CSV_HEADERS ensures h[0] != 'r' {
    }
  }

  /** The header list holds the base columns and exactly the instalment columns up to maxRate. */
  lemma HeadersAre(maxRate: nat, h: string)
    ensures h in Headers(maxRate) <==> h in BASE_CSV_HEADERS || IsRateKey(h, maxRate)
  {
    RateColumnsAre(maxRate, h);
  }

  /** No two columns of one file share a name. */
  lemma HeadersDistinct(maxRate: nat)
    ensures Distinct(Headers(maxRate))
  {
    BaseDistinct();
    RateColumnsDistinct(maxRate);
    var rates := RateColumns(maxRate);
    forall k | 0 <= k < |rates| ensures rates[k] !in BASE_CSV_HEADERS {
      RateColumnsAre(maxRate, rates[k]);
      var i: nat, f :| 1 <= i <= maxRate && IsRateField(f) && rates[k] == RateKey(i, f);
      RateKeyNotBase(i, f);
    }
    DistinctAppend(BASE_CSV_HEADERS, rates);
  }

  lemma BaseDistinct()
    ensures Distinct(BASE_CSV_HEADERS)
  {
    var b := BASE_CSV_HEADERS;
    var lengths := [14, 10, 4, 3, 9, 3, 6, 9, 12, 8, 13, 25, 7, 8, 20, 14, 7, 11];
    assert forall i :: 0 <= i < |b| ==> |b[i]| == lengths[i];
    assert b[0][0] != b[15][0] && b[3][0] != b[5][0] && b[4][0] != b[7][0];
    assert b[9][0] != b[13][0] && b[12][0] != b[16][0];
  }

  lemma {:induction false} RateColumnsDistinct(maxRate: nat)
    ensures Distinct(RateColumns(maxRate))
  {
    if maxRate > 0 {
      RateColumnsDistinct(maxRate - 1);
      RateKeyIsNew(maxRate, "_numero_avviso");
      RateKeyIsNew(maxRate, "_importo");
      RateKeyIsNew(maxRate, "_scadenza");
      RateHeadersDistinct(maxRate);
      DistinctAppend(RateColumns(maxRate - 1), RateHeaders(maxRate));
    }
  }

  lemma RateKeyIsNew(n: nat, f: string)
    requires n > 0 && IsRateField(f)
    ensures RateKey(n, f) !in RateColumns(n - 1)
  {
    var h := RateKey(n, f);
    RateColumnsAre(n - 1, h);
    if IsRateKey(h, n - 1) {
      var i: nat, g :| 1 <= i <= n - 1 && IsRateField(g) && h == RateKey(i, g);
      RateFieldShape(f);
      RateFieldShape(g);
      RateKeyInjective(i, g, n, f);
    }
  }

  lemma RateFieldShape(f: string)
    requires IsRateField(f)
    ensures |f| > 0 && f[0] == '_'
  {
  }

  lemma RateHeadersDistinct(i: nat)
    ensures Distinct(RateHeaders(i))
  {
  }

  lemma DistinctAppend(xs: seq<string>, ys: seq<string>)
    requires Distinct(xs) && Distinct(ys)
    requires forall k :: 0 <= k < |ys| ==> ys[k] !in xs
    ensures Distinct(xs + ys)
  {
  }

  // ---------------------------------------------------------------- printing

  /** Every `\r\n` or `\n` becomes one space. */
  function CollapseBreaks(s: string): (r: string)
    ensures '\n' !in r
    ensures '\n' !in s ==> r == s
  {
    if s == [] then []
    else if s[0] == '\n' then " " + CollapseBreaks(s[1..])
    else if |s| > 1 && s[0] == '\r' && s[1] == '\n' then " " + CollapseBreaks(s[2..])
    else
      assert forall c :: c in s[1..] ==> c in s;
      [s[0]] + CollapseBreaks(s[1..])
  }

  lemma {:induction false} CollapseAppend(a: string, rest: string)
    requires a == "" || a[|a| - 1] != '\r'
    ensures CollapseBreaks(a + rest) == CollapseBreaks(a) + CollapseBreaks(rest)
  {
    if a == "" {
      assert a + rest == rest;
    } else if |a| > 1 && a[0] == '\r' && a[1] == '\n' {
      assert (a + rest)[2..] == a[2..] + rest;
      CollapseAppend(a[2..], rest);
    } else {
      assert (a + rest)[1..] == a[1..] + rest;
      CollapseAppend(a[1..], rest);
    }
  }

  /** A line break of either kind is one space, and nothing else of the text changes. */
  lemma BreakIsSpace(a: string, br: string, b: string)
    requires br == "\n" || br == "\r\n"
    requires a == "" || a[|a| - 1] != '\r'
    ensures CollapseBreaks(a + (br + b)) == CollapseBreaks(a) + (" " + CollapseBreaks(b))
  {
    BreakFirst(br, b);
    CollapseAppend(a, br + b);
  }

  lemma BreakFirst(br: string, b: string)
    requires br == "\n" || br == "\r\n"
    ensures CollapseBreaks(br + b) == " " + CollapseBreaks(b)
  {
    assert (br + b)[|br|..] == b;
  }

  function DoubleQuotes(s: string): string {
    if s == [] then []
    else (if s[0] == '"' then "\"\"" else [s[0]]) + DoubleQuotes(s[1..])
  }

  function Quote(v: string): string {
    "\"" + DoubleQuotes(CollapseBreaks(v)) + "\""
  }

  lemma {:induction false} DoubleQuotesAppend(a: string, b: string)
    ensures DoubleQuotes(a + b) == DoubleQuotes(a) + DoubleQuotes(b)
  {
    if a == "" {
      assert a + b == b;
    } else {
      assert (a + b)[1..] == a[1..] + b;
      DoubleQuotesAppend(a[1..], b);
    }
  }

  lemma {:induction false} PlainText(s: string)
    requires '"' !in s
    ensures DoubleQuotes(s) == s
  {
    if s != "" {
      PlainText(s[1..]);
    }
  }

  /** Text without quotes and breaks is printed as it is, between quotes. */
  lemma PrintedText(s: string)
    requires '"' !in s && '\n' !in s
    ensures Quote(s) == "\"" + s + "\""
  {
    PlainText(s);
  }

  /** A quote is printed as two. */
  lemma PrintedQuote(a: string, b: string)
    requires '"' !in a && '\n' !in a && '"' !in b && '\n' !in b
    ensures Quote(a + "\"" + b) == "\"" + (a + "\"\"" + b) + "\""
  {
    DoubledQuote(a, b);
    assert '\n' !in a + "\"" + b;
  }

  lemma DoubledQuote(a: string, b: string)
    requires '"' !in a && '"' !in b
    ensures DoubleQuotes(a + "\"" + b) == a + "\"\"" + b
  {
    QuoteAlone();
    DoubleQuotesAppend(a + "\"", b);
    DoubleQuotesAppend(a, "\"");
    PlainText(a);
    PlainText(b);
  }

  lemma QuoteAlone()
    ensures DoubleQuotes("\"") == "\"\""
  {
    assert "\""[1..] == "";
  }

  /** A break of either kind is printed as one space. */
  lemma PrintedBreak(a: string, br: string, b: string)
    requires br == "\n" || br == "\r\n"
    requires '"' !in a && '\n' !in a && (a == "" || a[|a| - 1] != '\r')
    requires '"' !in b && '\n' !in b
    ensures Quote(a + (br + b)) == "\"" + (a + (" " + b)) + "\""
  {
    BreakIsSpace(a, br, b);
    PlainText(a + (" " + b));
  }

  /** A line is its cells with semicolons between them. */
  lemma PrintedLine(v: string, w: string)
    ensures Line([v, w]) == Quote(v) + ";" + Quote(w)
  {
    assert Quoted([v, w]) == [Quote(v), Quote(w)];
    assert [Quote(v), Quote(w)][1..] == [Quote(w)];
    assert Join([Quote(w)], ';') == Quote(w);
  }

  function Cell(row: Row, h: string): string {
    if h in row then row[h] else ""
  }

  function Cells(headers: seq<string>, row: Row): (cells: seq<string>)
    ensures |cells| == |headers|
    ensures forall i :: 0 <= i < |headers| ==> cells[i] == Cell(row, headers[i])
  {
    if headers == [] then [] else [Cell(row, headers[0])] + Cells(headers[1..], row)
  }

  function Quoted(cells: seq<string>): (q: seq<string>)
    ensures |q| == |cells|
    ensures forall i :: 0 <= i < |cells| ==> q[i] == Quote(cells[i])
  {
    if cells == [] then [] else [Quote(cells[0])] + Quoted(cells[1..])
  }

  function Line(cells: seq<string>): string {
    Join(Quoted(cells), ';')
  }

  function Lines(headers: seq<string>, rows: seq<Row>): (lines: seq<string>)
    ensures |lines| == |rows| + 1 && lines[0] == Line(headers)
    ensures forall i :: 0 <= i < |rows| ==> lines[i + 1] == Line(Cells(headers, rows[i]))
  {
    if rows == [] then [Line(headers)]
    else
      var n := |rows| - 1;
      var before := Lines(headers, rows[..n]);
      var last := Line(Cells(headers, rows[n]));
      assert forall i :: 0 <= i < n ==> before[i + 1] == Line(Cells(headers, rows[..n][i]));
      assert forall i :: 0 <= i < n ==> rows[..n][i] == rows[i];
      before + [last]
  }

  function Csv(headers: seq<string>, rows: seq<Row>): string {
    Join(Lines(headers, rows), '\n')
  }

  method BuildEnrichedCsv(headers: seq<string>, rows: seq<Row>) returns (content: string)
    ensures content == Csv(headers, rows)
  {
    var lines := [Line(headers)];
    for k := 0 to |rows|
      invariant lines == Lines(headers, rows[..k])
    {
      assert rows[..k + 1][..k] == rows[..k];
      lines := lines + [Line(Cells(headers, rows[k]))];
    }
    assert rows[..|rows|] == rows;
    content := Join(lines, '\n');
  }

  // ---------------------------------------------------------------- parsing

  /** Where the closing quote of `"(?:[^"]|"")*"` stands, scanning `s` from `pos` after an
      opening quote: greedy, and backtracking to the last doubled quote when the text ends. */
  function CloseOf(s: string, pos: nat, pair: Option<nat>): (r: Option<nat>)
    requires pos <= |s| && (pair.Some? ==> pair.value < |s|)
    ensures r.Some? ==> r.value < |s|
    decreases |s| - pos
  {
    if pos == |s| then pair
    else if s[pos] != '"' then CloseOf(s, pos + 1, pair)
    else if pos + 1 < |s| && s[pos + 1] == '"' then CloseOf(s, pos + 2, Some(pos))
    else Some(pos)
  }

  /** `replace(/""/g, '"')`. */
  function Undouble(s: string): string {
    if s == [] then []
    else if |s| > 1 && s[0] == '"' && s[1] == '"' then "\"" + Undouble(s[2..])
    else [s[0]] + Undouble(s[1..])
  }

  /** All matches of the quoted-cell pattern in a line, left to right, unquoted. */
  function ParseLine(s: string): (cells: seq<string>)
    ensures '\n' !in s ==> forall c :: c in cells ==> '\n' !in c
  {
    if s == [] then []
    else if s[0] == '"' && CloseOf(s[1..], 0, None).Some? then
      var n := CloseOf(s[1..], 0, None).value;
      var cell := Undouble(s[1..][..n]);
      assert '\n' !in s ==> '\n' !in cell by { UndoubleChars(s[1..][..n]); }
      [cell] + ParseLine(s[1..][n + 1..])
    else ParseLine(s[1..])
  }

  lemma {:induction false} UndoubleChars(s: string)
    ensures forall c :: c in Undouble(s) ==> c in s
  {
    if |s| > 1 && s[0] == '"' && s[1] == '"' {
      UndoubleChars(s[2..]);
    } else if s != [] {
      UndoubleChars(s[1..]);
    }
  }

  function NonEmpty(lines: seq<string>): (r: seq<string>)
    ensures (forall i :: 0 <= i < |lines| ==> lines[i] != []) ==> r == lines
    ensures (forall i :: 0 <= i < |lines| ==> lines[i] == []) ==> r == []
  {
    if lines == [] then []
    else
      assert lines == [lines[0]] + lines[1..];
      assert forall i :: 0 <= i < |lines| - 1 ==> lines[1..][i] == lines[i + 1];
      (if lines[0] == [] then [] else [lines[0]]) + NonEmpty(lines[1..])
  }

  /** `headers.forEach((h, i) => row[h] = cells[i] ?? '')`: a repeated header keeps its last cell. */
  function RowOf(headers: seq<string>, cells: seq<string>): (row: Row)
    ensures row.Keys == set h | h in headers
  {
    if headers == [] then map[]
    else
      var n := |headers| - 1;
      assert headers == headers[..n] + [headers[n]];
      RowOf(headers[..n], cells)[headers[n] := if n < |cells| then cells[n] else ""]
  }

  function RowsOf(headers: seq<string>, lines: seq<string>): (rows: seq<Row>)
    ensures |rows| == |lines|
    ensures forall i :: 0 <= i < |lines| ==> rows[i] == RowOf(headers, ParseLine(lines[i]))
  {
    seq(|lines|, i requires 0 <= i < |lines| => RowOf(headers, ParseLine(lines[i])))
  }

  function Parse(content: string): Parsed {
    var lines := NonEmpty(Split(content, '\n'));
    if lines == [] then Parsed([], [])
    else
      var headers := ParseLine(lines[0]);
      Parsed(headers, RowsOf(headers, lines[1..]))
  }

  method FillRow(headers: seq<string>, cells: seq<string>) returns (row: Row)
    ensures row == RowOf(headers, cells)
  {
    row := map[];
    for i := 0 to |headers|
      invariant row == RowOf(headers[..i], cells)
    {
      assert headers[..i + 1][..i] == headers[..i];
      row := row[headers[i] := if i < |cells| then cells[i] else ""];
    }
    assert headers[..|headers|] == headers;
  }

  method ParseEnrichedCsv(content: string) returns (p: Parsed)
    ensures p == Parse(content)
  {
    var lines := NonEmpty(Split(content, '\n'));
    var headers := ParseLine(if |lines| > 0 then lines[0] else "");
    var rows := FillRows(headers, if |lines| > 0 then lines[1..] else []);
    p := Parsed(headers, rows);
  }

  method FillRows(headers: seq<string>, data: seq<string>) returns (rows: seq<Row>)
    ensures rows == RowsOf(headers, data)
  {
    rows := [];
    for k := 0 to |data|
      invariant |rows| == k && forall i :: 0 <= i < k ==> rows[i] == RowOf(headers, ParseLine(data[i]))
    {
      var row := FillRow(headers, ParseLine(data[k]));
      rows := rows + [row];
    }
  }

  // ---------------------------------------------------------------- round trip

  lemma {:induction false} UndoubleDoubles(x: string)
    ensures Undouble(DoubleQuotes(x)) == x
  {
    if x != [] {
      UndoubleDoubles(x[1..]);
      var d := DoubleQuotes(x);
      if x[0] == '"' {
        assert d[2..] == DoubleQuotes(x[1..]);
      } else {
        assert d[1..] == DoubleQuotes(x[1..]);
      }
    }
  }

  lemma {:induction false} DoubleQuotesChars(x: string)
    ensures forall c :: c in DoubleQuotes(x) ==> c in x
  {
    if x != [] {
      DoubleQuotesChars(x[1..]);
    }
  }

  /** The scan stops exactly at the quote that closes a printed cell. */
  lemma {:induction false} CloseOfPrinted(s: string, pos: nat, pair: Option<nat>, x: string, post: string)
    requires pos <= |s| && (pair.Some? ==> pair.value < |s|)
    requires s[pos..] == DoubleQuotes(x) + "\"" + post
    requires post == [] || post[0] != '"'
    ensures CloseOf(s, pos, pair) == Some(pos + |DoubleQuotes(x)|)
    decreases |x|
  {
    var d := DoubleQuotes(x);
    assert s[pos] == s[pos..][0];
    if x == [] {
      assert pos + 1 < |s| ==> s[pos + 1] == s[pos..][1] == post[0];
    } else if x[0] == '"' {
      assert s[pos + 1] == s[pos..][1];
      assert s[pos + 2..] == s[pos..][2..] == DoubleQuotes(x[1..]) + "\"" + post;
      CloseOfPrinted(s, pos + 2, Some(pos), x[1..], post);
    } else {
      assert s[pos + 1..] == s[pos..][1..] == DoubleQuotes(x[1..]) + "\"" + post;
      CloseOfPrinted(s, pos + 1, pair, x[1..], post);
    }
  }

  function Collapsed(cells: seq<string>): (r: seq<string>)
    ensures |r| == |cells|
    ensures forall i :: 0 <= i < |cells| ==> r[i] == CollapseBreaks(cells[i])
  {
    if cells == [] then [] else [CollapseBreaks(cells[0])] + Collapsed(cells[1..])
  }

  lemma AroundQuote(d: string, post: string)
    ensures var s := d + "\"" + post; s[0..] == s && s[..|d|] == d && s[|d| + 1..] == post
  {
  }

  lemma ParseOneCell(v: string, post: string)
    requires post == [] || post[0] != '"'
    ensures ParseLine(Quote(v) + post) == [CollapseBreaks(v)] + ParseLine(post)
  {
    var x := CollapseBreaks(v);
    var d := DoubleQuotes(x);
    var s := Quote(v) + post;
    assert s[1..] == d + "\"" + post;
    AroundQuote(d, post);
    CloseOfPrinted(s[1..], 0, None, x, post);
    UndoubleDoubles(x);
    ParseStep(s, |d|);
  }

  lemma ParseStep(s: string, n: nat)
    requires s != [] && s[0] == '"' && CloseOf(s[1..], 0, None) == Some(n)
    ensures ParseLine(s) == [Undouble(s[1..][..n])] + ParseLine(s[1..][n + 1..])
  {
    assert CloseOf(s[1..], 0, None).value == n;
  }

  /** One printed line parses back to its cells, for every text in them. */
  lemma {:induction false} LineRoundTrip(cells: seq<string>)
    ensures ParseLine(Line(cells)) == Collapsed(cells)
  {
    if |cells| == 1 {
      assert Quoted(cells)[0] + [] == Quote(cells[0]) + [];
      ParseOneCell(cells[0], []);
      assert Line(cells) == Quote(cells[0]) + [];
      assert Collapsed(cells[1..]) == [];
    } else if |cells| > 1 {
      LineRoundTrip(cells[1..]);
      var rest := [';'] + Line(cells[1..]);
      assert Line(cells) == Quote(cells[0]) + rest;
      ParseOneCell(cells[0], rest);
      assert rest[1..] == Line(cells[1..]);
    }
  }

  lemma QuoteChars(v: string)
    ensures '\n' !in Quote(v)
  {
    DoubleQuotesChars(CollapseBreaks(v));
  }

  lemma {:induction false} LineHasNoBreak(cells: seq<string>)
    ensures '\n' !in Line(cells)
    ensures cells != [] ==> Line(cells) != []
    ensures cells == [] ==> Line(cells) == []
  {
    if cells != [] {
      QuoteChars(cells[0]);
      if |cells| > 1 {
        LineHasNoBreak(cells[1..]);
        assert Line(cells) == Quote(cells[0]) + [';'] + Line(cells[1..]);
      }
    }
  }

  lemma SplitCsv(headers: seq<string>, rows: seq<Row>)
    ensures Split(Csv(headers, rows), '\n') == Lines(headers, rows)
  {
    var lines := Lines(headers, rows);
    forall l | l in lines ensures '\n' !in l {
      var i :| 0 <= i < |lines| && lines[i] == l;
      if i == 0 { LineHasNoBreak(headers); } else { LineHasNoBreak(Cells(headers, rows[i - 1])); }
    }
    SplitJoin(lines, '\n');
  }

  /** What a row is read back as: its value under every header, breaks collapsed. */
  function ReadBack(headers: seq<string>, row: Row): Row {
    RowOf(Collapsed(headers), Collapsed(Cells(headers, row)))
  }

  /** Parsing a printed file gives back its header line and every row, cell by cell. */
  lemma RoundTrip(headers: seq<string>, rows: seq<Row>)
    requires headers != []
    ensures Parse(Csv(headers, rows)).headers == Collapsed(headers)
    ensures |Parse(Csv(headers, rows)).rows| == |rows|
    ensures forall i :: 0 <= i < |rows| ==> Parse(Csv(headers, rows)).rows[i] == ReadBack(headers, rows[i])
  {
    var lines := Lines(headers, rows);
    SplitCsv(headers, rows);
    forall i | 0 <= i < |lines| ensures lines[i] != [] {
      if i == 0 { LineHasNoBreak(headers); } else { LineHasNoBreak(Cells(headers, rows[i - 1])); }
    }
    LineRoundTrip(headers);
    forall i | 0 <= i < |rows| ensures ParseLine(lines[1..][i]) == Collapsed(Cells(headers, rows[i])) {
      LineRoundTrip(Cells(headers, rows[i]));
    }
  }

  /** Rows survive the round trip exactly when the file has a header or nothing to lose. */
  lemma RowsSurvive(headers: seq<string>, rows: seq<Row>)
    ensures |Parse(Csv(headers, rows)).rows| == |rows| <==> headers != [] || rows == []
  {
    if headers != [] {
      RoundTrip(headers, rows);
    } else {
      SplitCsv(headers, rows);
      var lines := Lines(headers, rows);
      forall i | 0 <= i < |lines| ensures lines[i] == [] {
        if i > 0 { assert lines[i] == Line(Cells(headers, rows[i - 1])); }
        LineHasNoBreak([]);
      }
    }
  }

  predicate NoBreak(xs: seq<string>) {
    forall x :: x in xs ==> '\n' !in x
  }

  /** With break-free headers (repeated or not), each column reads back as that column's cell. */
  lemma {:induction false} ReadBackCell(headers: seq<string>, row: Row, h: string)
    requires NoBreak(headers) && h in headers
    ensures h in ReadBack(headers, row) && ReadBack(headers, row)[h] == CollapseBreaks(Cell(row, h))
  {
    assert Collapsed(headers) == headers;
    RowOfCell(headers, Collapsed(Cells(headers, row)), row, h);
  }

  lemma {:induction false} RowOfCell(headers: seq<string>, cells: seq<string>, row: Row, h: string)
    requires h in headers && |cells| >= |headers|
    requires forall i :: 0 <= i < |headers| ==> cells[i] == CollapseBreaks(Cell(row, headers[i]))
    ensures RowOf(headers, cells)[h] == CollapseBreaks(Cell(row, h))
  {
    var n := |headers| - 1;
    assert headers == headers[..n] + [headers[n]];
    if h != headers[n] {
      RowOfCell(headers[..n], cells, row, h);
    }
  }

  lemma BaseNoBreak()
    ensures NoBreak(BASE_CSV_HEADERS)
  {
  }

  lemma RateKeyNoBreak(i: nat, f: string)
    requires '\n' !in f
    ensures '\n' !in RateKey(i, f)
  {
  }

  lemma {:induction false} RateColumnsNoBreak(maxRate: nat)
    ensures NoBreak(RateColumns(maxRate))
  {
    if maxRate > 0 {
      RateColumnsNoBreak(maxRate - 1);
      RateKeyNoBreak(maxRate, "_numero_avviso");
      RateKeyNoBreak(maxRate, "_importo");
      RateKeyNoBreak(maxRate, "_scadenza");
    }
  }

  lemma HeadersNoBreak(maxRate: nat)
    ensures NoBreak(Headers(maxRate))
  {
    BaseNoBreak();
    RateColumnsNoBreak(maxRate);
  }

  /** The enriched file itself: its generated headers come back unchanged, and every cell of
      every row is the one printed, exactly so when the cell holds no line break. */
  lemma EnrichedRoundTrip(maxRate: nat, rows: seq<Row>, i: nat, h: string)
    requires i < |rows| && h in Headers(maxRate)
    ensures var p := Parse(Csv(Headers(maxRate), rows));
      p.headers == Headers(maxRate) && |p.rows| == |rows|
      && p.rows[i].Keys == (set k | k in Headers(maxRate))
      && p.rows[i][h] == CollapseBreaks(Cell(rows[i], h))
      && ('\n' !in Cell(rows[i], h) ==> p.rows[i][h] == Cell(rows[i], h))
      && LinesJoined(Cell(rows[i], h), p.rows[i][h])
  {
    var headers := Headers(maxRate);
    HeadersNoBreak(maxRate);
    assert Collapsed(headers) == headers;
    RoundTrip(headers, rows);
    ReadBackCell(headers, rows[i], h);
    LinesJoin(Cell(rows[i], h));
  }

  /** A text of two lines is read as both with one space between. */
  ghost predicate LinesJoined(text: string, read: string) {
    forall a, b :: TwoLines(text, a, b) ==> read == a + (" " + b)
  }

  lemma LinesJoin(text: string)
    ensures LinesJoined(text, CollapseBreaks(text))
  {
    forall a, b | TwoLines(text, a, b) ensures CollapseBreaks(text) == a + (" " + b) {
      BreakIsSpace(a, if text == a + ("\n" + b) then "\n" else "\r\n", b);
    }
  }

  /** The text is two lines, ended either way. */
  predicate TwoLines(text: string, a: string, b: string) {
    && (text == a + ("\n" + b) || text == a + ("\r\n" + b))
    && '\n' !in a && '\n' !in b && (a == "" || a[|a| - 1] != '\r')
  }
}
