/**
 * The audit trail as CSV text, and a reader of such text after section 2 of RFC 4180
 * (with LF as the line break).
 */
module AuditCsv {
  import opened Options
  import opened Sequences

  datatype Row = Row(
    occurred: string, actorType: string, actorId: string, action: string, targetType: string, targetId: string) {
    function Fields(): seq<string> {
      [occurred, actorType, actorId, action, targetType, targetId]
    }
  }

  const HEADER := "when," + ("actor_type," + ("actor_id," + ("action," + ("target_type," + "target_id"))))

  function Names(): seq<string> {
    ["when", "actor_type", "actor_id", "action", "target_type", "target_id"]
  }

  // ---------- writing ----------

  /** A spreadsheet would take the text for a formula. */
  predicate Formula(s: string) {
    s != "" && s[0] in "=+-@"
  }

  function Guarded(s: string): string {
    if Formula(s) then "'" + s else s
  }

  function Doubled(s: string): string {
    if s == "" then "" else (if s[0] == '"' then "\"\"" else [s[0]]) + Doubled(s[1..])
  }

  function CsvField(s: string): string {
    "\"" + (Doubled(Guarded(s)) + "\"")
  }

  function Joined(fields: seq<string>): string
    requires fields != []
  {
    if |fields| == 1 then CsvField(fields[0]) else CsvField(fields[0]) + ("," + Joined(fields[1..]))
  }

  function Exported(rows: seq<Row>): string {
    if rows == [] then HEADER + "\n" else Exported(rows[..|rows| - 1]) + (Joined(rows[|rows| - 1].Fields()) + "\n")
  }

  method AuditExport(rows: seq<Row>) returns (text: string)
    ensures text == Exported(rows)
  {
    text := HEADER + "\n";
    for i := 0 to |rows|
      invariant text == Exported(rows[..i])
    {
      var x := rows[i];
      TakeTake(rows, i, i + 1);
      SixFields(x);
      text := text + (CsvField(x.occurred) + "," + CsvField(x.actorType) + "," + CsvField(x.actorId) + ","
                      + CsvField(x.action) + "," + CsvField(x.targetType) + "," + CsvField(x.targetId) + "\n");
    }
    assert rows[..|rows|] == rows;
  }

  lemma JoinedCons(s: string, rest: seq<string>)
    requires rest != []
    ensures Joined([s] + rest) == CsvField(s) + ("," + Joined(rest))
  {
    assert ([s] + rest)[1..] == rest;
  }

  lemma SixFields(x: Row)
    ensures CsvField(x.occurred) + "," + CsvField(x.actorType) + "," + CsvField(x.actorId) + ","
            + CsvField(x.action) + "," + CsvField(x.targetType) + "," + CsvField(x.targetId) + "\n"
            == Joined(x.Fields()) + "\n"
  {
    var f5 := [x.targetId];
    var f4 := [x.targetType] + f5;
    var f3 := [x.action] + f4;
    var f2 := [x.actorId] + f3;
    var f1 := [x.actorType] + f2;
    JoinedCons(x.targetType, f5);
    JoinedCons(x.action, f4);
    JoinedCons(x.actorId, f3);
    JoinedCons(x.actorType, f2);
    JoinedCons(x.occurred, f1);
    assert x.Fields() == [x.occurred] + f1;
    Join6(CsvField(x.occurred), CsvField(x.actorType), CsvField(x.actorId), CsvField(x.action), CsvField(x.targetType),
          CsvField(x.targetId));
  }

  lemma Join6(a: string, b: string, c: string, d: string, e: string, f: string)
    ensures a + "," + b + "," + c + "," + d + "," + e + "," + f + "\n"
            == a + ("," + (b + ("," + (c + ("," + (d + ("," + (e + ("," + f))))))))) + "\n"
  {
  }

  // ---------- reading ----------

  /** Where the reader is: before a field, in a bare one, in a quoted one, or after a quote within one. */
  datatype Mode = Before | Bare | Quoted | AfterQuote

  datatype Reader = Reader(mode: Mode, field: string, record: seq<string>, records: seq<seq<string>>)

  /** One character; `None` when the text does not follow the grammar. */
  function Fed(r: Reader, c: char): Option<Reader> {
    if r.mode == Quoted then
      Some(if c == '"' then r.(mode := AfterQuote) else r.(field := r.field + [c]))
    else if r.mode == AfterQuote && c == '"' then
      Some(r.(mode := Quoted, field := r.field + [c]))
    else if c == ',' then
      Some(Reader(Before, "", r.record + [r.field], r.records))
    else if c == '\n' then
      Some(Reader(Before, "", [], r.records + [r.record + [r.field]]))
    else if r.mode == Before && c == '"' then
      Some(r.(mode := Quoted))
    else if r.mode == AfterQuote || c == '"' || c == '\r' then
      None
    else
      Some(r.(mode := Bare, field := r.field + [c]))
  }

  function Scan(r: Option<Reader>, s: string): Option<Reader>
    decreases |s|
  {
    if s == "" || r == None then r else Scan(Fed(r.value, s[0]), s[1..])
  }

  /** The records of a text; the last one may or may not end in a line break. */
  function Read(s: string): Option<seq<seq<string>>> {
    var r := Scan(Some(Reader(Before, "", [], [])), s);
    if r == None || r.value.mode == Quoted then None
    else if r.value.mode == Before && r.value.record == [] then Some(r.value.records)
    else Some(r.value.records + [r.value.record + [r.value.field]])
  }

  lemma {:induction false} ScanAppend(r: Option<Reader>, s: string, t: string)
    ensures Scan(r, s + t) == Scan(Scan(r, s), t)
    decreases |s|
  {
    if s == "" || r == None {
      assert s == "" ==> s + t == t;
    } else {
      TailOfAppend(s, t);
      ScanAppend(Fed(r.value, s[0]), s[1..], t);
    }
  }

  lemma ScanOne(r: Reader, c: char)
    ensures Scan(Some(r), [c]) == Fed(r, c)
  {
    assert [c][1..] == "";
  }

  lemma ScanPair(r: Reader)
    requires r.mode == Quoted
    ensures Scan(Some(r), "\"\"") == Some(r.(field := r.field + "\""))
  {
    assert "\"\""[1..] == "\"";
    ScanOne(r.(mode := AfterQuote), '"');
  }

  /** Inside quotes, the doubled text reads as the text. */
  lemma {:induction false} DoubledReads(r: Reader, s: string)
    requires r.mode == Quoted
    ensures Scan(Some(r), Doubled(s)) == Some(r.(field := r.field + s))
    decreases |s|
  {
    if s == "" {
      assert r.field + s == r.field;
    } else {
      var first := if s[0] == '"' then "\"\"" else [s[0]];
      if s[0] == '"' {
        ScanPair(r);
      } else {
        ScanOne(r, s[0]);
      }
      ScanAppend(Some(r), first, Doubled(s[1..]));
      DoubledReads(r.(field := r.field + [s[0]]), s[1..]);
      assert r.field + [s[0]] + s[1..] == r.field + s;
    }
  }

  /** A written field is read back whole, whatever it contains. */
  lemma FieldReads(record: seq<string>, records: seq<seq<string>>, s: string)
    ensures Scan(Some(Reader(Before, "", record, records)), CsvField(s))
            == Some(Reader(AfterQuote, Guarded(s), record, records))
  {
    var r := Reader(Before, "", record, records);
    var inside := r.(mode := Quoted);
    var g := Guarded(s);
    ScanOne(r, '"');
    ScanAppend(Some(r), "\"", Doubled(g) + "\"");
    DoubledReads(inside, g);
    ScanAppend(Some(inside), Doubled(g), "\"");
    ScanOne(inside.(field := g), '"');
    assert "" + g == g;
  }

  function GuardedAll(fields: seq<string>): (r: seq<string>)
    ensures |r| == |fields|
    ensures forall i :: 0 <= i < |fields| ==> r[i] == Guarded(fields[i])
  {
    seq(|fields|, i requires 0 <= i < |fields| => Guarded(fields[i]))
  }

  lemma FieldThenComma(record: seq<string>, records: seq<seq<string>>, s: string, rest: string)
    ensures Scan(Some(Reader(Before, "", record, records)), CsvField(s) + ("," + rest))
            == Scan(Some(Reader(Before, "", record + [Guarded(s)], records)), rest)
  {
    var r := Some(Reader(Before, "", record, records));
    FieldReads(record, records, s);
    ScanAppend(r, CsvField(s), "," + rest);
    ScanAppend(Scan(r, CsvField(s)), ",", rest);
    ScanOne(Reader(AfterQuote, Guarded(s), record, records), ',');
  }

  lemma FieldThenEnd(record: seq<string>, records: seq<seq<string>>, s: string)
    ensures Scan(Some(Reader(Before, "", record, records)), CsvField(s) + "\n")
            == Some(Reader(Before, "", [], records + [record + [Guarded(s)]]))
  {
    FieldReads(record, records, s);
    ScanAppend(Some(Reader(Before, "", record, records)), CsvField(s), "\n");
    ScanOne(Reader(AfterQuote, Guarded(s), record, records), '\n');
  }

  lemma {:induction false} LineReads(fields: seq<string>, record: seq<string>, records: seq<seq<string>>)
    requires fields != []
    ensures Scan(Some(Reader(Before, "", record, records)), Joined(fields) + "\n")
            == Some(Reader(Before, "", [], records + [record + GuardedAll(fields)]))
    decreases |fields|
  {
    var g := Guarded(fields[0]);
    if |fields| == 1 {
      FieldThenEnd(record, records, fields[0]);
      assert GuardedAll(fields) == [g];
    } else {
      FieldThenComma(record, records, fields[0], Joined(fields[1..]) + "\n");
      assert CsvField(fields[0]) + ("," + Joined(fields[1..])) + "\n"
          == CsvField(fields[0]) + ("," + (Joined(fields[1..]) + "\n"));
      LineReads(fields[1..], record + [g], records);
      assert record + [g] + GuardedAll(fields[1..]) == record + GuardedAll(fields);
    }
  }

  // ---------- the header ----------

  predicate Ordinary(s: string) {
    forall c :: c in s ==> c !in ",\"\r\n"
  }

  lemma {:induction false} BareReads(r: Reader, s: string)
    requires Ordinary(s) && s != "" && (r.mode == Before || r.mode == Bare)
    ensures Scan(Some(r), s) == Some(r.(mode := Bare, field := r.field + s))
    decreases |s|
  {
    var next := r.(mode := Bare, field := r.field + [s[0]]);
    assert s[0] in s;
    assert Fed(r, s[0]) == Some(next);
    if |s| == 1 {
      assert s[1..] == "" && s == [s[0]];
    } else {
      BareReads(next, s[1..]);
      assert r.field + [s[0]] + s[1..] == r.field + s;
    }
  }

  function Bares(names: seq<string>): string
    requires names != []
  {
    if |names| == 1 then names[0] else names[0] + ("," + Bares(names[1..]))
  }

  predicate AllOrdinary(names: seq<string>) {
    forall i :: 0 <= i < |names| ==> names[i] != "" && Ordinary(names[i])
  }

  /** A bare field and the separator after it. */
  lemma BareThen(n: string, c: char, rest: string, record: seq<string>)
    requires n != "" && Ordinary(n) && (c == ',' || c == '\n')
    ensures Scan(Some(Reader(Before, "", record, [])), n + ([c] + rest))
            == Scan(Fed(Reader(Bare, n, record, []), c), rest)
  {
    var r := Reader(Before, "", record, []);
    BareReads(r, n);
    assert "" + n == n;
    ScanAppend(Some(r), n, [c] + rest);
    ScanAppend(Some(Reader(Bare, n, record, [])), [c], rest);
    ScanOne(Reader(Bare, n, record, []), c);
  }

  lemma {:induction false} BaresRead(names: seq<string>, record: seq<string>)
    requires names != [] && AllOrdinary(names)
    ensures Scan(Some(Reader(Before, "", record, [])), Bares(names) + "\n")
            == Some(Reader(Before, "", [], [record + names]))
    decreases |names|
  {
    var n := names[0];
    if |names| == 1 {
      BareThen(n, '\n', "", record);
      assert n + (['\n'] + "") == Bares(names) + "\n";
      assert names == [n];
      AppendEmpty([record + names]);
    } else {
      var rest := Bares(names[1..]) + "\n";
      BareThen(n, ',', rest, record);
      BaresRead(names[1..], record + [n]);
      assert n + ("," + Bares(names[1..])) + "\n" == n + ("," + rest);
      assert record + [n] + names[1..] == record + names;
    }
  }

  lemma BaresCons(n: string, rest: seq<string>)
    requires rest != []
    ensures Bares([n] + rest) == n + ("," + Bares(rest))
  {
    assert ([n] + rest)[1..] == rest;
  }

  lemma NameAndComma(name: string, comma: string, rest: seq<string>)
    requires rest != [] && comma == name + ","
    ensures Bares([name] + rest) == comma + Bares(rest)
  {
    BaresCons(name, rest);
  }

  lemma {:induction false} HeaderIsNames()
    ensures HEADER == Bares(Names())
  {
    var n5 := ["target_id"];
    var n4 := ["target_type"] + n5;
    var n3 := ["action"] + n4;
    var n2 := ["actor_id"] + n3;
    var n1 := ["actor_type"] + n2;
    NameAndComma("target_type", "target_type,", n5);
    NameAndComma("action", "action,", n4);
    NameAndComma("actor_id", "actor_id,", n3);
    NameAndComma("actor_type", "actor_type,", n2);
    NameAndComma("when", "when,", n1);
    assert Bares(n5) == "target_id";
    assert Names() == ["when"] + n1;
  }

  // ---------- the whole text ----------

  /** What a reader finds: the names, then the fields of every row, guarded. */
  function Records(rows: seq<Row>): (r: seq<seq<string>>)
    ensures |r| == |rows| + 1 && r[0] == Names()
    ensures forall i :: 0 <= i < |rows| ==> r[i + 1] == GuardedAll(rows[i].Fields())
  {
    [Names()] + seq(|rows|, i requires 0 <= i < |rows| => GuardedAll(rows[i].Fields()))
  }

  lemma NamesOrdinary()
    ensures AllOrdinary(Names())
  {
  }

  lemma HeaderScans()
    ensures Scan(Some(Reader(Before, "", [], [])), HEADER + "\n") == Some(Reader(Before, "", [], [Names()]))
  {
    HeaderIsNames();
    NamesOrdinary();
    BaresRead(Names(), []);
    AppendEmpty(Names());
  }

  lemma RecordsSnoc(rows: seq<Row>)
    requires rows != []
    ensures Records(rows) == Records(rows[..|rows| - 1]) + [GuardedAll(rows[|rows| - 1].Fields())]
  {
  }

  lemma OneMoreLine(text: string, fields: seq<string>, records: seq<seq<string>>)
    requires fields != []
    requires Scan(Some(Reader(Before, "", [], [])), text) == Some(Reader(Before, "", [], records))
    ensures Scan(Some(Reader(Before, "", [], [])), text + (Joined(fields) + "\n"))
            == Some(Reader(Before, "", [], records + [GuardedAll(fields)]))
  {
    ScanAppend(Some(Reader(Before, "", [], [])), text, Joined(fields) + "\n");
    LineReads(fields, [], records);
    AppendEmpty(GuardedAll(fields));
  }

  lemma {:induction false} ExportScans(rows: seq<Row>)
    ensures Scan(Some(Reader(Before, "", [], [])), Exported(rows)) == Some(Reader(Before, "", [], Records(rows)))
    decreases |rows|
  {
    if rows == [] {
      HeaderScans();
      assert Records(rows) == [Names()];
    } else {
      var n := |rows| - 1;
      ExportScans(rows[..n]);
      OneMoreLine(Exported(rows[..n]), rows[n].Fields(), Records(rows[..n]));
      RecordsSnoc(rows);
    }
  }

  /** A spreadsheet takes a text for a formula if it starts with one of four characters. */
  predicate Dangerous(s: string) {
    s != "" && (s[0] == '=' || s[0] == '+' || s[0] == '-' || s[0] == '@')
  }

  /** What a reader finds in the place of a field. */
  predicate Defused(s: string, found: string) {
    found == if Dangerous(s) then "'" + s else s
  }

  predicate FoundRow(x: Row, f: seq<string>) {
    && |f| == 6
    && Defused(x.occurred, f[0]) && Defused(x.actorType, f[1]) && Defused(x.actorId, f[2])
    && Defused(x.action, f[3]) && Defused(x.targetType, f[4]) && Defused(x.targetId, f[5])
  }

  /** Reading the export gives the header and every row's fields, for any contents. */
  lemma RoundTrip(rows: seq<Row>)
    ensures Read(Exported(rows)) == Some(Records(rows))
    ensures |Records(rows)| == |rows| + 1
    ensures Records(rows)[0] == ["when", "actor_type", "actor_id", "action", "target_type", "target_id"]
    ensures forall i :: 0 <= i < |rows| ==> FoundRow(rows[i], Records(rows)[i + 1])
  {
    ExportScans(rows);
    forall i | 0 <= i < |rows| ensures FoundRow(rows[i], Records(rows)[i + 1]) {
      RowIsFound(rows[i]);
    }
  }

  lemma GuardDefuses(s: string)
    ensures Defused(s, Guarded(s))
  {
  }

  lemma RowIsFound(x: Row)
    ensures FoundRow(x, GuardedAll(x.Fields()))
  {
    var fields := x.Fields();
    assert |fields| == 6 && fields[0] == x.occurred && fields[1] == x.actorType && fields[2] == x.actorId;
    assert fields[3] == x.action && fields[4] == x.targetType && fields[5] == x.targetId;
    forall k | 0 <= k < 6 ensures Defused(fields[k], GuardedAll(fields)[k]) {
      GuardDefuses(fields[k]);
    }
  }

  lemma GuardedIsSafe(s: string)
    ensures !Dangerous(Guarded(s)) && (Guarded(s) == s <==> !Dangerous(s))
  {
    if Formula(s) {
      assert Guarded(s)[0] == '\'';
    }
  }

  lemma FieldRead(rows: seq<Row>, i: nat, k: nat)
    requires i < |rows| && k < 6
    ensures |Records(rows)| == |rows| + 1 && |Records(rows)[i + 1]| == 6
    ensures Records(rows)[i + 1][k] == Guarded(rows[i].Fields()[k])
  {
    assert Records(rows)[i + 1] == GuardedAll(rows[i].Fields());
  }

  /** No field that is read back would be taken for a formula. */
  lemma NothingIsAFormula(rows: seq<Row>, i: nat, k: nat)
    requires i < |rows| && k < 6
    ensures Read(Exported(rows)).Some? && |Read(Exported(rows)).value| == |rows| + 1
    ensures var f := Read(Exported(rows)).value[i + 1];
            |f| == 6 && !Dangerous(f[k]) && (f[k] == rows[i].Fields()[k] <==> !Dangerous(rows[i].Fields()[k]))
  {
    RoundTrip(rows);
    FieldRead(rows, i, k);
    GuardedIsSafe(rows[i].Fields()[k]);
  }

  /** What the export does not tell apart: a formula, and the same text with the guard already there. */
  lemma SameTextIff(a: string, b: string)
    ensures CsvField(a) == CsvField(b) <==> a == b || (Dangerous(a) && b == "'" + a) || (Dangerous(b) && a == "'" + b)
  {
    FieldReads([], [], a);
    FieldReads([], [], b);
    if Guarded(a) == Guarded(b) && a != b {
      assert Formula(a) ==> Guarded(a)[1..] == a;
      assert Formula(b) ==> Guarded(b)[1..] == b;
    }
  }
}
