/** The Maggioli trace: rubrica.csv and pag_indice.csv read line by line. */
module MaggioliTrace {
  import opened Text
  import opened RowExtraction

  // ------------------------------------------------------------- lines

  function DropCr(line: string): string {
    if line != "" && line[|line| - 1] == '\r' then line[..|line| - 1] else line
  }

  /** Every line but the last loses one carriage return at its end. */
  function DropCrs(lines: seq<string>): (r: seq<string>)
    requires lines != []
    ensures |r| == |lines|
    ensures forall i :: 0 <= i < |lines| ==> r[i] == if i < |lines| - 1 then DropCr(lines[i]) else lines[i]
  {
    seq(|lines|, i requires 0 <= i < |lines| => if i < |lines| - 1 then DropCr(lines[i]) else lines[i])
  }

  /** `text.split(/\r?\n/)` */
  function SplitLines(text: string): (r: seq<string>)
    ensures r != []
  {
    DropCrs(Split(text, '\n'))
  }

  /** Two lists of lines that differ at most by a carriage return at the end of some. */
  predicate SameButCr(a: seq<string>, b: seq<string>) {
    |a| == |b| && forall i :: 0 <= i < |a| ==> a[i] == b[i] || a[i] == b[i] + "\r" || a[i] + "\r" == b[i]
  }

  lemma SplitLinesJoined(a: string, b: string)
    ensures SameButCr(SplitLines(a + "\n" + b), SplitLines(a) + SplitLines(b))
  {
    SplitAtSeparator(a, b, '\n');
    var xs, ys := Split(a, '\n'), Split(b, '\n');
    var whole, parts := SplitLines(a + "\n" + b), SplitLines(a) + SplitLines(b);
    forall i | 0 <= i < |whole| ensures whole[i] == parts[i] || whole[i] + "\r" == parts[i] {
      if i == |xs| - 1 {
        assert DropCr(xs[i]) == xs[i] || DropCr(xs[i]) + "\r" == xs[i];
      }
    }
  }

  // ------------------------------------------------------------- rubrica.csv

  function TipoFromCf(cf: string): string {
    if |Trim(cf)| == 16 then "PF" else "PG"
  }

  /** Ten digits are a company number that lost its zero. */
  function NormalizeCodiceFiscale(value: string): string {
    var v := Trim(value);
    if |v| == 10 && forall c :: c in v ==> '0' <= c <= '9' then "0" + v else v
  }

  /** `while (last is blank) fields.pop()` */
  function Popped(fields: seq<string>): (r: seq<string>)
    ensures r <= fields
  {
    if fields != [] && Trim(fields[|fields| - 1]) == "" then Popped(fields[..|fields| - 1]) else fields
  }

  /** The k-th field, trimmed; the padding of short lines is empty. */
  function Field(fields: seq<string>, k: nat): string {
    if k < |fields| then Trim(fields[k]) else ""
  }

  function RubricaFields(fields: seq<string>, cf: nat, pec: nat, name: nat, date: string, subject: nat, pdf: nat): MaggioliRecord {
    var taxCode := NormalizeCodiceFiscale(Field(fields, cf));
    MaggioliRecord(taxCode, Field(fields, name), TipoFromCf(taxCode), Field(fields, pec), Field(fields, name + 1), date,
      Field(fields, subject), Field(fields, pdf), None, "", "", "")
  }

  /** The three layouts: 18 fields or more, 16, anything else read as 14. */
  function RubricaRecord(fields: seq<string>): MaggioliRecord {
    if |fields| >= 18 then
      RubricaFields(fields, 7, 3, 9, Field(fields, 11) + "/" + Field(fields, 12) + "/" + Field(fields, 13), 14, 17)
    else if |fields| == 16 then RubricaFields(fields, 7, 3, 9, Field(fields, 11), 12, 15)
    else RubricaFields(fields, 5, 1, 7, Field(fields, 9), 10, 13)
  }

  /** A non-blank line, trimmed or not. */
  function RubricaLine(line: string): MaggioliRecord {
    RubricaRecord(Popped(Split(Trim(line), ';')))
  }

  function RubricaLines(lines: seq<string>): seq<MaggioliRecord> {
    if lines == [] then []
    else
      var last := lines[|lines| - 1];
      RubricaLines(lines[..|lines| - 1]) + if Trim(last) == "" then [] else [RubricaLine(last)]
  }

  /** What parseRubricaPec gives. */
  function Rubrica(text: string): seq<MaggioliRecord> {
    RubricaLines(SplitLines(text))
  }

  // ------------------------------------------------------------- where the fields stand

  /** The k-th field of a line, empty when the line is shorter. */
  function FieldAt(f: seq<string>, k: nat): string {
    if k < |f| then Trim(f[k]) else ""
  }

  /** A company number of ten digits gets its zero back; any other tax code is as written, without the spaces. */
  lemma TaxCode(v: string)
    requires Trim(v) == v
    ensures |v| == 10 && (forall c :: c in v ==> c in "0123456789") ==> NormalizeCodiceFiscale(v) == "0" + v
    ensures |v| != 10 || (exists c :: c in v && c !in "0123456789") ==> NormalizeCodiceFiscale(v) == v
    ensures TipoFromCf(v) == if |v| == 16 then "PF" else "PG"
  {
    assert forall c: char :: c in "0123456789" <==> '0' <= c <= '9';
  }

  /** A line that begins as its first field, or with the separator after it, and ends as its last. */
  predicate Ends(line: string, first: string, last: string) {
    && line != "" && last != "" && line[|line| - 1] == last[|last| - 1]
    && line[0] == if first == "" then ';' else first[0]
  }

  lemma {:induction false} JoinEnds(f: seq<string>)
    requires f != [] && f[|f| - 1] != ""
    ensures Ends(Join(f, ';'), f[0], f[|f| - 1])
  {
    if |f| > 1 {
      JoinEnds(f[1..]);
    }
  }

  /** A line put together from fields without separators, the last of them not empty, is read by position: a
      first layout from 18 fields on, with the date in three of them, a second of exactly 16, and a third of 14. */
  lemma FieldsRead(f: seq<string>)
    requires f != [] && f[|f| - 1] != "" && Trim(f[0]) == f[0] && Trim(f[|f| - 1]) == f[|f| - 1]
    requires forall p :: p in f ==> ';' !in p
    ensures LaidOut(f, RubricaLine(Join(f, ';')))
  {
    var line := Join(f, ';');
    FieldsTrim(f);
    SplitJoin(f, ';');
    FieldsKept(f);
    assert RubricaLine(line) == RubricaRecord(f);
    RecordRead(f);
  }

  lemma FieldsTrim(f: seq<string>)
    requires f != [] && f[|f| - 1] != "" && Trim(f[0]) == f[0] && Trim(f[|f| - 1]) == f[|f| - 1]
    ensures Trim(Join(f, ';')) == Join(f, ';')
  {
    var line, first, last := Join(f, ';'), f[0], f[|f| - 1];
    assert Ends(line, first, last) by { JoinEnds(f); }
    EndsTrim(line, first, last);
  }

  lemma EndsTrim(line: string, first: string, last: string)
    requires Ends(line, first, last) && Trim(first) == first && Trim(last) == last
    ensures Trim(line) == line
  {
    NoSpaceAtEnds(first);
    NoSpaceAtEnds(last);
    TrimPlain(line);
  }

  lemma NoSpaceAtEnds(s: string)
    requires Trim(s) == s
    ensures s == "" || (!IsSpace(s[0]) && !IsSpace(s[|s| - 1]))
  {
  }

  lemma FieldsKept(f: seq<string>)
    requires f != [] && Trim(f[|f| - 1]) != ""
    ensures Popped(f) == f
  {
  }

  /** The record that the fields of a line stand for, by their number. */
  predicate LaidOut(f: seq<string>, r: MaggioliRecord) {
    && (|f| >= 18 ==> r == TraceRecord(FieldAt(f, 7), FieldAt(f, 9), FieldAt(f, 3), FieldAt(f, 10),
          FieldAt(f, 11) + "/" + FieldAt(f, 12) + "/" + FieldAt(f, 13), FieldAt(f, 14), FieldAt(f, 17)))
    && (|f| == 16 ==> r == TraceRecord(FieldAt(f, 7), FieldAt(f, 9), FieldAt(f, 3), FieldAt(f, 10), FieldAt(f, 11),
          FieldAt(f, 12), FieldAt(f, 15)))
    && (|f| < 18 && |f| != 16 ==> r == TraceRecord(FieldAt(f, 5), FieldAt(f, 7), FieldAt(f, 1), FieldAt(f, 8), FieldAt(f, 9),
          FieldAt(f, 10), FieldAt(f, 13)))
  }

  lemma RecordRead(f: seq<string>)
    ensures LaidOut(f, RubricaRecord(f))
  {
    assert forall k: nat :: Field(f, k) == FieldAt(f, k);
  }

  /** A record of rubrica.csv. */
  function TraceRecord(cf: string, nominativo: string, pec: string, provvedimento: string, data: string, oggetto: string, pdf: string):
      MaggioliRecord
  {
    var taxCode := NormalizeCodiceFiscale(cf);
    MaggioliRecord(taxCode, nominativo, TipoFromCf(taxCode), pec, provvedimento, data, oggetto, pdf, None, "", "", "")
  }

  // ------------------------------------------------------------- the reading

  method PopBlank(all: seq<string>) returns (fields: seq<string>)
    ensures fields == Popped(all)
  {
    fields := all;
    while fields != [] && Trim(fields[|fields| - 1]) == ""
      invariant Popped(fields) == Popped(all)
      decreases |fields|
    {
      fields := fields[..|fields| - 1];
    }
  }

  method ParseRubricaPec(text: string) returns (records: seq<MaggioliRecord>)
    ensures records == Rubrica(text)
  {
    records := [];
    var lines := SplitLines(text);
    for i := 0 to |lines|
      invariant records == RubricaLines(lines[..i])
    {
      assert lines[..i + 1][..i] == lines[..i];
      var line := Trim(lines[i]);
      if line != "" {
        var fields := PopBlank(Split(line, ';'));
        records := records + [RubricaRecord(fields)];
      }
    }
    assert lines[..|lines|] == lines;
  }

  lemma {:induction false} RubricaLinesAppend(a: seq<string>, b: seq<string>)
    ensures RubricaLines(a + b) == RubricaLines(a) + RubricaLines(b)
  {
    if b == [] {
      assert a + b == a;
    } else {
      var n := |b| - 1;
      assert (a + b)[..|a + b| - 1] == a + b[..n] && (a + b)[|a + b| - 1] == b[n];
      RubricaLinesAppend(a, b[..n]);
    }
  }

  lemma {:induction false} RubricaLinesSame(a: seq<string>, b: seq<string>)
    requires SameButCr(a, b)
    ensures RubricaLines(a) == RubricaLines(b)
  {
    if a != [] {
      var n := |a| - 1;
      RubricaLinesSame(a[..n], b[..n]);
      TrimSpaceAfter(a[n], '\r');
      TrimSpaceAfter(b[n], '\r');
    }
  }

  /** Two traces joined by a newline read as the two readings one after the other, whatever their line
      ends. */
  lemma RubricaJoined(a: string, b: string)
    ensures Rubrica(a + "\n" + b) == Rubrica(a) + Rubrica(b)
  {
    SplitLinesJoined(a, b);
    RubricaLinesSame(SplitLines(a + "\n" + b), SplitLines(a) + SplitLines(b));
    RubricaLinesAppend(SplitLines(a), SplitLines(b));
  }

  // ------------------------------------------------------------- trailing separators

  /** Records look at trimmed fields only. */
  lemma SameFields(a: seq<string>, b: seq<string>)
    requires SameTrimmed(a, b)
    ensures RubricaRecord(a) == RubricaRecord(b)
  {
    assert forall k: nat :: Field(a, k) == Field(b, k);
  }

  lemma {:induction false} PoppedSame(a: seq<string>, b: seq<string>)
    requires SameTrimmed(a, b)
    ensures SameTrimmed(Popped(a), Popped(b))
  {
    if a != [] {
      var n := |a| - 1;
      FirstSameTrimmed(a, b);
      if Trim(a[n]) == "" {
        PoppedSame(a[..n], b[..n]);
      }
    }
  }

  lemma FirstSameTrimmed(a: seq<string>, b: seq<string>)
    requires a != [] && SameTrimmed(a, b)
    ensures SameTrimmed(a[..|a| - 1], b[..|b| - 1]) && Trim(a[|a| - 1]) == Trim(b[|b| - 1])
  {
  }

  /** A separator more at the end of a line changes its record exactly when the line was blank: then a
      record of empty fields appears. */
  lemma TrailingSeparator(line: string)
    ensures Trim(line) != "" ==> RubricaLine(line + ";") == RubricaLine(line)
    ensures RubricaLines([line + ";"]) == RubricaLines([line]) <==> Trim(line) != ""
  {
    TrimBlank(line + ";");
    assert (line + ";")[|line|] in line + ";" && !IsSpace(';');
    if Trim(line) != "" {
      SameRecord(line);
    }
    OneLine(line + ";");
    OneLine(line);
  }

  lemma OneLine(line: string)
    ensures RubricaLines([line]) == if Trim(line) == "" then [] else [RubricaLine(line)]
  {
  }

  lemma SameRecord(line: string)
    requires Trim(line) != ""
    ensures RubricaLine(line + ";") == RubricaLine(line)
  {
    var t := TrimLeft(line);
    var a, b := Split(t, ';'), Split(TrimRight(t), ';');
    TrimmedSeparator(line);
    SplitAtSeparator(t, "", ';');
    assert t + ";" + "" == t + ";" && Split("", ';') == [""];
    PoppedEmpty(a);
    TrimmedLast(t);
    PoppedSame(a, b);
    SameFields(Popped(a), Popped(b));
  }

  lemma PoppedEmpty(fields: seq<string>)
    ensures Popped(fields + [""]) == Popped(fields)
  {
  }

  lemma {:induction false} TrimmedSeparator(line: string)
    requires Trim(line) != ""
    ensures Trim(line + ";") == TrimLeft(line) + ";"
  {
    if IsSpace(line[0]) {
      assert (line + ";")[1..] == line[1..] + ";";
      TrimmedSeparator(line[1..]);
    }
  }

  /** Fields that differ in the spaces around them at most. */
  predicate SameTrimmed(a: seq<string>, b: seq<string>) {
    |a| == |b| && forall i :: 0 <= i < |a| ==> Trim(a[i]) == Trim(b[i])
  }

  /** Trimming the end of a text trims the end of its last field. */
  lemma {:induction false} TrimmedLast(t: string)
    ensures SameTrimmed(Split(t, ';'), Split(TrimRight(t), ';'))
  {
    if t != "" && IsSpace(t[|t| - 1]) {
      var n := |t| - 1;
      TrimmedLast(t[..n]);
      assert t == t[..n] + [t[n]];
      SplitSpaceAfter(t[..n], t[n]);
    }
  }

  lemma {:induction false} SplitLast(s: string, c: char)
    requires c != ';'
    ensures Split(s + [c], ';') == Longer(Split(s, ';'), c)
  {
    if s == "" {
      assert s + [c] == [c] && [c][1..] == "" && [c] + "" == "" + [c];
      assert Split("", ';') == [""];
    } else {
      assert (s + [c])[1..] == s[1..] + [c];
      SplitLast(s[1..], c);
      PushLonger(s[0], Split(s[1..], ';'), c);
    }
  }

  /** One character more at the end of the last part. */
  function Longer(parts: seq<string>, c: char): seq<string>
    requires parts != []
  {
    parts[|parts| - 1 := parts[|parts| - 1] + [c]]
  }

  lemma PushLonger(first: char, rest: seq<string>, c: char)
    requires rest != []
    ensures Push(first, ';', Longer(rest, c)) == Longer(Push(first, ';', rest), c)
  {
    if first != ';' && |rest| == 1 {
      assert [first] + (rest[0] + [c]) == ([first] + rest[0]) + [c];
    } else if first == ';' {
      assert [[]] + Longer(rest, c) == Longer([[]] + rest, c);
    } else {
      var head := [[first] + rest[0]];
      assert head + Longer(rest, c)[1..] == Longer(head + rest[1..], c);
    }
  }

  lemma SplitSpaceAfter(s: string, c: char)
    requires IsSpace(c)
    ensures SameTrimmed(Split(s + [c], ';'), Split(s, ';'))
  {
    var b := Split(s, ';');
    SplitLast(s, c);
    TrimSpaceAfter(b[|b| - 1], c);
  }
}
