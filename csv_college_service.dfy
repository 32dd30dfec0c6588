/** The CSV-backed college catalogue (src/services/csvCollegeService.js): a
    quote-aware line splitter, the row parser, the `₹` amount reader, the
    stream keyword rules and the cached catalogue with its queries. */
module CsvCollegeService {
  import opened Common
  import opened Sorting

  // ---------------------------------------------------------------------
  // parseCSVLine

  /** The splitter's state after a prefix of the line: the finished fields,
      the open field and whether a quote is open. */
  datatype LineState = LineState(fields: seq<string>, current: string, inQuotes: bool)

  /** One character: a quote flips quoting and is dropped, a comma outside
      quotes closes the open field, anything else extends it. */
  function Step(st: LineState, ch: char): LineState
  {
    if ch == '"' then st.(inQuotes := !st.inQuotes)
    else if ch == ',' && !st.inQuotes then LineState(st.fields + [st.current], "", st.inQuotes)
    else st.(current := st.current + [ch])
  }

  function Run(line: string): LineState
  {
    if line == [] then LineState([], "", false)
    else Step(Run(line[..|line| - 1]), line[|line| - 1])
  }

  /** The fields of a line: the finished ones and the one left open at the end. */
  function Fields(line: string): seq<string>
  {
    Run(line).fields + [Run(line).current]
  }

  /** `parseCSVLine`: the character loop. */
  method ParseCSVLine(line: string) returns (result: seq<string>)
    ensures result == Fields(line)
  {
    result := [];
    var current := "";
    var inQuotes := false;
    for i := 0 to |line|
      invariant Run(line[..i]) == LineState(result, current, inQuotes)
    {
      assert line[..i + 1][..i] == line[..i];
      var ch := line[i];
      if ch == '"' {
        inQuotes := !inQuotes;
      } else if ch == ',' && !inQuotes {
        result := result + [current];
        current := "";
      } else {
        current := current + [ch];
      }
    }
    assert line[..|line|] == line;
    result := result + [current];
  }

  /** Number of quote characters in `s`. */
  function QuoteCount(s: string): nat
  {
    if s == [] then 0 else QuoteCount(s[..|s| - 1]) + (if s[|s| - 1] == '"' then 1 else 0)
  }

  /** The comma at `i` lies outside quotes: an even number of quotes precede it. */
  predicate OutsideComma(line: string, i: nat)
    requires i < |line|
  {
    line[i] == ',' && QuoteCount(line[..i]) % 2 == 0
  }

  /** Number of commas outside quotes. */
  function CommasOutside(line: string): nat
  {
    if line == [] then 0
    else CommasOutside(line[..|line| - 1]) + (if OutsideComma(line, |line| - 1) then 1 else 0)
  }

  lemma {:induction false} RunCounts(line: string)
    ensures Run(line).inQuotes <==> QuoteCount(line) % 2 == 1
    ensures |Run(line).fields| == CommasOutside(line)
    ensures '"' !in Run(line).current && forall f :: f in Run(line).fields ==> '"' !in f
    decreases |line|
  {
    if line != [] {
      var init := line[..|line| - 1];
      RunCounts(init);
      assert line[..|line| - 1] == init;
    }
  }

  /** A line always splits into one field more than it has commas outside
      quotes, so never into none. */
  lemma FieldCount(line: string)
    ensures |Fields(line)| == 1 + CommasOutside(line)
    ensures Fields(line) != []
  {
    RunCounts(line);
  }

  /** Quotes are dropped: no field contains one. */
  lemma NoQuoteInFields(line: string)
    ensures forall f :: f in Fields(line) ==> '"' !in f
  {
    RunCounts(line);
  }

  /** Round trip one way: a line without quotes is its fields joined by commas. */
  lemma {:induction false} JoinFields(line: string)
    requires '"' !in line
    ensures Join(Fields(line), ',') == line
    ensures !Run(line).inQuotes
    decreases |line|
  {
    if line != [] {
      var init := line[..|line| - 1];
      var c := line[|line| - 1];
      assert line == init + [c];
      assert '"' !in init;
      JoinFields(init);
      var st := Run(init);
      assert Run(line) == Step(st, c);
      if c == ',' {
        assert Fields(line) == st.fields + [st.current] + [""];
        JoinNewPart(st.fields, st.current, ',');
      } else {
        assert Fields(line) == st.fields + [st.current + [c]];
        JoinExtendLast(st.fields, st.current, c, ',');
      }
    }
  }

  /** Characters that neither split nor quote. */
  predicate Plain(w: string)
  {
    ',' !in w && '"' !in w
  }

  lemma {:induction false} RunAppendPlain(p: string, w: string)
    requires Plain(w)
    ensures Run(p + w) == Run(p).(current := Run(p).current + w)
    decreases |w|
  {
    if w == [] {
      assert p + w == p;
    } else {
      var w' := w[..|w| - 1];
      assert forall x :: x in w' ==> x in w;
      RunAppendPlain(p, w');
      assert (p + w)[..|p + w| - 1] == p + w';
      assert w == w' + [w[|w| - 1]];
    }
  }

  lemma {:induction false} RunJoin(fs: seq<string>)
    requires fs != [] && forall f :: f in fs ==> Plain(f)
    ensures Run(Join(fs, ',')) == LineState(fs[..|fs| - 1], fs[|fs| - 1], false)
    decreases |fs|
  {
    if |fs| == 1 {
      RunAppendPlain([], fs[0]);
      assert [] + fs[0] == fs[0];
      assert Join(fs, ',') == fs[0];
    } else {
      var init := fs[..|fs| - 1];
      var last := fs[|fs| - 1];
      assert forall f :: f in init ==> f in fs;
      RunJoin(init);
      var j := Join(init, ',');
      RunComma(j, init);
      RunAppendPlain(j + [','], last);
      assert Join(fs, ',') == j + [','] + last;
    }
  }

  /** A comma outside quotes closes the open field. */
  lemma RunComma(j: string, fs: seq<string>)
    requires fs != [] && Run(j) == LineState(fs[..|fs| - 1], fs[|fs| - 1], false)
    ensures Run(j + [',']) == LineState(fs, "", false)
  {
    var jc := j + [','];
    assert jc[..|jc| - 1] == j;
    assert fs[..|fs| - 1] + [fs[|fs| - 1]] == fs;
  }

  /** Round trip the other way: fields without commas or quotes, joined by
      commas, split back into themselves. */
  lemma SplitJoined(fs: seq<string>)
    requires fs != [] && forall f :: f in fs ==> Plain(f)
    ensures Fields(Join(fs, ',')) == fs
  {
    RunJoin(fs);
  }

  /** An opening quote after a comma starts a quoted field. */
  lemma QuoteOpens()
    ensures Run("a,\"b") == LineState(["a"], "b", true)
  {
    assert Run("a") == LineState([], "a", false) by { assert "a"[..0] == ""; }
    assert Run("a,") == LineState(["a"], "", false) by { assert "a,"[..1] == "a"; }
    assert Run("a,\"") == LineState(["a"], "", true) by { assert "a,\""[..2] == "a,"; }
    assert "a,\"b"[..3] == "a,\"";
  }

  /** A quoted comma stays inside its field, and every quote is dropped. */
  lemma QuotedComma()
    ensures Fields("a,\"b,c\",d") == ["a", "b,c", "d"]
  {
    QuoteOpens();
    assert Run("a,\"b,") == LineState(["a"], "b,", true) by { assert "a,\"b,"[..4] == "a,\"b"; }
    assert Run("a,\"b,c") == LineState(["a"], "b,c", true) by { assert "a,\"b,c"[..5] == "a,\"b,"; }
    assert Run("a,\"b,c\"") == LineState(["a"], "b,c", false) by { assert "a,\"b,c\""[..6] == "a,\"b,c"; }
    assert Run("a,\"b,c\",") == LineState(["a", "b,c"], "", false) by { assert "a,\"b,c\","[..7] == "a,\"b,c\""; }
    assert Run("a,\"b,c\",d") == LineState(["a", "b,c"], "d", false) by { assert "a,\"b,c\",d"[..8] == "a,\"b,c\","; }
  }

  // ---------------------------------------------------------------------
  // extractFeeAmount

  const Rupee: char := '\U{20B9}'

  function DigitValue(c: char): nat
    requires IsDigit(c)
  {
    (c as int) - ('0' as int)
  }

  predicate AllDigits(s: string)
  {
    forall i :: 0 <= i < |s| ==> IsDigit(s[i])
  }

  /** `parseInt` of a run of decimal digits. */
  function DecimalValue(s: string): nat
    requires AllDigits(s)
  {
    if s == [] then 0 else DecimalValue(s[..|s| - 1]) * 10 + DigitValue(s[|s| - 1])
  }

  /** The longest run of digits at the start of `s` (what `\d+` takes). */
  function LeadingDigits(s: string): (r: string)
    ensures r <= s && AllDigits(r)
    ensures |r| == |s| || !IsDigit(s[|r|])
  {
    if s != [] && IsDigit(s[0]) then [s[0]] + LeadingDigits(s[1..]) else []
  }

  /** `₹` at `p`, directly followed by a digit: where `/₹(\d+)/` can match. */
  predicate AmountAt(s: string, p: nat)
  {
    p + 1 < |s| && s[p] == Rupee && IsDigit(s[p + 1])
  }

  /** The leftmost match position at or after `from`. */
  function FindAmount(s: string, from: nat): (r: Option<nat>)
    requires from <= |s|
    ensures r.Some? ==> from <= r.value < |s| && AmountAt(s, r.value)
    ensures r.Some? ==> forall q :: from <= q < r.value ==> !AmountAt(s, q)
    ensures r.None? ==> forall q :: from <= q < |s| ==> !AmountAt(s, q)
    decreases |s| - from
  {
    if from == |s| then None
    else if AmountAt(s, from) then Some(from)
    else FindAmount(s, from + 1)
  }

  /** `extractFeeAmount`: the value of the digits after the first `₹` that
      has any, or 0. */
  function ExtractFeeAmount(fee: string): (n: nat)
    ensures (forall p :: 0 <= p < |fee| ==> !AmountAt(fee, p)) ==> n == 0
    ensures forall p :: 0 <= p < |fee| && AmountAt(fee, p) && (forall q :: 0 <= q < p ==> !AmountAt(fee, q)) ==>
      n == DecimalValue(LeadingDigits(fee[p + 1..]))
  {
    match FindAmount(fee, 0)
    case None => 0
    case Some(p) => DecimalValue(LeadingDigits(fee[p + 1..]))
  }

  /** The decimal digits of `n`, as the fee strings of the catalogue write them. */
  function Decimal(n: nat): (r: string)
    ensures r != [] && AllDigits(r)
  {
    if n < 10 then [('0' as int + n) as char] else Decimal(n / 10) + [('0' as int + n % 10) as char]
  }

  lemma {:induction false} DecimalRoundTrip(n: nat)
    ensures DecimalValue(Decimal(n)) == n
  {
    var d := Decimal(n);
    if n < 10 {
      assert d[..0] == [];
    } else {
      DecimalRoundTrip(n / 10);
      assert d[..|d| - 1] == Decimal(n / 10);
    }
  }

  lemma {:induction false} LeadingDigitsOf(ds: string, t: string)
    requires AllDigits(ds) && (t == [] || !IsDigit(t[0]))
    ensures LeadingDigits(ds + t) == ds
    decreases |ds|
  {
    if ds == [] {
      assert ds + t == t;
    } else {
      LeadingDigitsOf(ds[1..], t);
      assert (ds + t)[1..] == ds[1..] + t;
    }
  }

  /** A fee written as `₹<n>/year` reads back as `n`. */
  lemma FeeRoundTrip(n: nat)
    ensures ExtractFeeAmount([Rupee] + Decimal(n) + "/year") == n
  {
    var s := [Rupee] + Decimal(n) + "/year";
    assert AmountAt(s, 0);
    assert s[1..] == Decimal(n) + "/year";
    LeadingDigitsOf(Decimal(n), "/year");
    DecimalRoundTrip(n);
  }

  // ---------------------------------------------------------------------
  // parseCSV

  /** A kept row: the trimmed value under each trimmed header, the line index
      as `id` and the amount read from the `Fee` value. */
  datatype CsvCollege = CsvCollege(values: map<string, string>, id: nat, feeAmount: nat)

  /** `college.Stream`, `college.State`, ...: the value under a header. */
  function FieldOf(c: CsvCollege, key: string): string
  {
    if key in c.values then c.values[key] else ""
  }

  /** Each string trimmed, in order. */
  function TrimAll(xs: seq<string>): (r: seq<string>)
    ensures |r| == |xs| && forall k :: 0 <= k < |xs| ==> r[k] == Trim(xs[k])
  {
    seq(|xs|, k requires 0 <= k < |xs| => Trim(xs[k]))
  }

  lemma TrimAllTrimmed(xs: seq<string>)
    ensures forall v :: v in TrimAll(xs) ==> Trimmed(v)
  {
    forall k | 0 <= k < |xs| ensures Trimmed(TrimAll(xs)[k]) {
      TrimIsTrimmed(xs[k]);
    }
  }

  /** The trimmed header names: the keys of every row. */
  function HeaderKeys(headers: seq<string>): seq<string>
  {
    TrimAll(headers)
  }

  /** No later key repeats key `k`. */
  predicate LastOccurrence(keys: seq<string>, k: nat)
    requires k < |keys|
  {
    forall j :: k < j < |keys| ==> keys[j] != keys[k]
  }

  /** `college[keys[i]] = vals[i]` for each index in turn, so a repeated key
      keeps its last value. */
  function Assign(keys: seq<string>, vals: seq<string>): map<string, string>
    requires |keys| == |vals|
  {
    if keys == [] then map[]
    else
      var n := |keys| - 1;
      Assign(keys[..n], vals[..n])[keys[n] := vals[n]]
  }

  /** The assigned keys are exactly the given ones, and every value is one of
      the given values. */
  lemma {:induction false} AssignShape(keys: seq<string>, vals: seq<string>)
    requires |keys| == |vals|
    ensures forall key :: key in Assign(keys, vals) <==> key in keys
    ensures forall key :: key in Assign(keys, vals) ==> Assign(keys, vals)[key] in vals
    decreases |keys|
  {
    if keys != [] {
      var n := |keys| - 1;
      AssignShape(keys[..n], vals[..n]);
      assert keys == keys[..n] + [keys[n]];
      assert vals == vals[..n] + [vals[n]];
    }
  }

  /** A key not repeated later holds its own value. */
  lemma {:induction false} AssignAt(keys: seq<string>, vals: seq<string>, k: nat)
    requires |keys| == |vals| && k < |keys| && LastOccurrence(keys, k)
    ensures keys[k] in Assign(keys, vals) && Assign(keys, vals)[keys[k]] == vals[k]
    decreases |keys|
  {
    var n := |keys| - 1;
    if k < n {
      var ks, vs := keys[..n], vals[..n];
      assert ks[k] == keys[k] && vs[k] == vals[k];
      assert LastOccurrence(ks, k) by {
        forall j | k < j < |ks| ensures ks[j] != ks[k] {
          assert ks[j] == keys[j];
        }
      }
      AssignAt(ks, vs, k);
    }
  }

  /** The row object built from a line's fields: the trimmed value under each
      trimmed header. */
  function RowValues(headers: seq<string>, values: seq<string>): map<string, string>
    requires |headers| == |values|
  {
    Assign(HeaderKeys(headers), TrimAll(values))
  }

  /** A row has exactly the trimmed headers as keys, and trimmed values; under
      a header not repeated later sits that column's field, trimmed. */
  lemma RowValuesShape(headers: seq<string>, values: seq<string>)
    requires |headers| == |values|
    ensures forall key :: key in RowValues(headers, values) <==> key in HeaderKeys(headers)
    ensures forall key :: key in RowValues(headers, values) ==> Trimmed(RowValues(headers, values)[key])
    ensures forall k :: 0 <= k < |headers| && LastOccurrence(HeaderKeys(headers), k) ==>
      Trim(headers[k]) in RowValues(headers, values) && RowValues(headers, values)[Trim(headers[k])] == Trim(values[k])
  {
    AssignShape(HeaderKeys(headers), TrimAll(values));
    TrimAllTrimmed(values);
    forall k | 0 <= k < |headers| && LastOccurrence(HeaderKeys(headers), k)
      ensures Trim(headers[k]) in RowValues(headers, values) && RowValues(headers, values)[Trim(headers[k])] == Trim(values[k])
    {
      AssignAt(HeaderKeys(headers), TrimAll(values), k);
    }
  }

  predicate Kept(lines: seq<string>, headers: seq<string>, i: nat)
    requires i < |lines|
  {
    |Fields(lines[i])| == |headers|
  }

  /** The row built from line `i` (for a kept line; any other index gives an
      empty record). */
  function RowAt(lines: seq<string>, headers: seq<string>, i: nat): CsvCollege
  {
    var values := if i < |lines| && Kept(lines, headers, i) then RowValues(headers, Fields(lines[i])) else map[];
    CsvCollege(values, i, if "Fee" in values then ExtractFeeAmount(values["Fee"]) else 0)
  }

  function RowBuilder(lines: seq<string>, headers: seq<string>): nat -> CsvCollege
  {
    (i: nat) => RowAt(lines, headers, i)
  }

  /** The indices of the data lines below `n` whose field count matches the
      header count: exactly those, each once, in ascending order. */
  function KeptLines(lines: seq<string>, headers: seq<string>, n: nat): (ids: seq<nat>)
    requires n <= |lines|
    ensures forall k :: 0 <= k < |ids| ==> 1 <= ids[k] < n && Kept(lines, headers, ids[k])
    ensures forall a, b :: 0 <= a < b < |ids| ==> ids[a] < ids[b]
    ensures forall i :: 1 <= i < n && Kept(lines, headers, i) ==> i in ids
  {
    if n <= 1 then []
    else KeptLines(lines, headers, n - 1) + (if Kept(lines, headers, n - 1) then [n - 1] else [])
  }

  /** `build` applied to each index, in order. */
  function Build<R>(build: nat -> R, ids: seq<nat>): (r: seq<R>)
    ensures |r| == |ids| && forall k :: 0 <= k < |ids| ==> r[k] == build(ids[k])
  {
    seq(|ids|, k requires 0 <= k < |ids| => build(ids[k]))
  }

  lemma BuildSnoc<R>(build: nat -> R, ids: seq<nat>, i: nat)
    ensures Build(build, ids + [i]) == Build(build, ids) + [build(i)]
  {
  }

  /** The rows the loop keeps from the lines below `n`. */
  function KeptRows(lines: seq<string>, headers: seq<string>, n: nat): (rows: seq<CsvCollege>)
    requires n <= |lines|
    ensures |rows| == |KeptLines(lines, headers, n)|
  {
    Build(RowBuilder(lines, headers), KeptLines(lines, headers, n))
  }

  /** One more line: its row is appended when it is kept. */
  lemma KeptRowsStep(lines: seq<string>, headers: seq<string>, n: nat)
    requires 1 <= n < |lines|
    ensures KeptRows(lines, headers, n + 1) ==
      KeptRows(lines, headers, n) + (if Kept(lines, headers, n) then [RowAt(lines, headers, n)] else [])
  {
    var a := KeptLines(lines, headers, n);
    var b := KeptLines(lines, headers, n + 1);
    if Kept(lines, headers, n) {
      assert b == a + [n];
      BuildSnoc(RowBuilder(lines, headers), a, n);
    } else {
      assert b == a;
    }
  }

  /** What `extractFeeAmount(undefined)` throws when there is no `Fee` column. */
  const FeeError := "Cannot read properties of undefined (reading 'match')"

  /** `parseCSV`: the lines of the trimmed text, the header line split on
      every comma, the data lines split by the quote-aware splitter. */
  function Parsed(csv: string): Result<seq<CsvCollege>>
  {
    var lines := Split(Trim(csv), '\n');
    var headers := Split(lines[0], ',');
    var rows := KeptRows(lines, headers, |lines|);
    if rows != [] && "Fee" !in HeaderKeys(headers) then Err(FeeError) else Ok(rows)
  }

  lemma {:induction false} KeptRowsGrow(lines: seq<string>, headers: seq<string>, m: nat, n: nat)
    requires 1 <= m <= n <= |lines|
    ensures |KeptRows(lines, headers, m)| <= |KeptRows(lines, headers, n)|
    decreases n
  {
    if m < n {
      KeptRowsGrow(lines, headers, m, n - 1);
      assert |KeptLines(lines, headers, n)| >= |KeptLines(lines, headers, n - 1)|;
    }
  }

  /** Kept rows appear in line order, each built from its own line. */
  lemma KeptRowsFacts(lines: seq<string>, headers: seq<string>, n: nat)
    requires n <= |lines|
    ensures forall a, b :: 0 <= a < b < |KeptRows(lines, headers, n)| ==>
      KeptRows(lines, headers, n)[a].id < KeptRows(lines, headers, n)[b].id
    ensures forall row :: row in KeptRows(lines, headers, n) ==>
      1 <= row.id < n && Kept(lines, headers, row.id) && row == RowAt(lines, headers, row.id)
    ensures forall i :: 1 <= i < n && Kept(lines, headers, i) ==>
      exists row :: row in KeptRows(lines, headers, n) && row.id == i
  {
    var ids := KeptLines(lines, headers, n);
    var rows := KeptRows(lines, headers, n);
    forall i | 1 <= i < n && Kept(lines, headers, i)
      ensures exists row :: row in rows && row.id == i
    {
      var k :| 0 <= k < |ids| && ids[k] == i;
      assert rows[k] in rows;
    }
  }

  /** Every parsed row holds exactly the header keys, trimmed values, and the
      amount read from its `Fee` value. */
  lemma ParsedRows(csv: string)
    requires Parsed(csv).Ok?
    ensures var headers := Split(Split(Trim(csv), '\n')[0], ',');
      forall row :: row in Parsed(csv).value ==>
        (forall key :: key in row.values <==> key in HeaderKeys(headers)) &&
        (forall key :: key in row.values ==> Trimmed(row.values[key])) &&
        row.feeAmount == ExtractFeeAmount(row.values["Fee"])
  {
    var lines := Split(Trim(csv), '\n');
    var headers := Split(lines[0], ',');
    KeptRowsFacts(lines, headers, |lines|);
    forall row | row in Parsed(csv).value
      ensures (forall key :: key in row.values <==> key in HeaderKeys(headers)) &&
        (forall key :: key in row.values ==> Trimmed(row.values[key]))
    {
      RowValuesShape(headers, Fields(lines[row.id]));
    }
  }

  /** `parseCSV`: the loop over the data lines. */
  method ParseCSV(csvData: string) returns (r: Result<seq<CsvCollege>>)
    ensures r == Parsed(csvData)
  {
    var lines := Split(Trim(csvData), '\n');
    var headers := Split(lines[0], ',');
    var colleges: seq<CsvCollege> := [];
    for i := 1 to |lines|
      invariant colleges == KeptRows(lines, headers, i)
      invariant colleges != [] ==> "Fee" in HeaderKeys(headers)
    {
      KeptRowsStep(lines, headers, i);
      var values := ParseCSVLine(lines[i]);
      if |values| == |headers| {
        var college := RowValues(headers, values);
        RowValuesShape(headers, values);
        if "Fee" !in college {
          assert "Fee" !in HeaderKeys(headers);
          KeptRowsGrow(lines, headers, i + 1, |lines|);
          assert KeptRows(lines, headers, |lines|) != [];
          return Err(FeeError);
        }
        assert RowAt(lines, headers, i) == CsvCollege(college, i, ExtractFeeAmount(college["Fee"]));
        colleges := colleges + [CsvCollege(college, i, ExtractFeeAmount(college["Fee"]))];
      }
    }
    return Ok(colleges);
  }

  // ---------------------------------------------------------------------
  // getCollegesByStream: keyword rules

  /** The `getCollegesByStream` test of one college: the lowercased query
      picks a rule by its first keyword hit (engineering or technology, then
      medical or doctor, then science, then commerce or business, then
      architecture) and the rule decides on the lowercased course name; a
      query with no keyword is looked for as a substring. */
  predicate StreamMatches(query: string, collegeStream: string)
  {
    LoweredMatches(Lower(query), Lower(collegeStream))
  }

  /** The rule chain on an already lowercased query and course name. */
  predicate LoweredMatches(q: string, cs: string)
  {
    if Contains(q, "engineering") || Contains(q, "technology") then Contains(cs, "b.tech") || Contains(cs, "b.e")
    else if Contains(q, "medical") || Contains(q, "doctor") then Contains(cs, "mbbs")
    else if Contains(q, "science") then Contains(cs, "b.sc")
    else if Contains(q, "commerce") || Contains(q, "business") then Contains(cs, "b.com")
    else if Contains(q, "architecture") then Contains(cs, "b.arch")
    else Contains(cs, q)
  }

  /** A keyword rule as a table entry: the query keywords that select it and
      the course-name fragments it accepts. */
  datatype KeywordRule = KeywordRule(keywords: seq<string>, fragments: seq<string>)

  const StreamRules: seq<KeywordRule> := [
    KeywordRule(["engineering", "technology"], ["b.tech", "b.e"]),
    KeywordRule(["medical", "doctor"], ["mbbs"]),
    KeywordRule(["science"], ["b.sc"]),
    KeywordRule(["commerce", "business"], ["b.com"]),
    KeywordRule(["architecture"], ["b.arch"])]

  predicate Selects(rule: KeywordRule, q: string)
  {
    exists k :: k in rule.keywords && Contains(q, k)
  }

  /** The fragments of the first rule a (lowercased) query selects, or the
      query itself. */
  function RuleFragments(q: string, rules: seq<KeywordRule>): seq<string>
  {
    if rules == [] then [q]
    else if Selects(rules[0], q) then rules[0].fragments
    else RuleFragments(q, rules[1..])
  }

  /** The first selected rule decides. */
  lemma {:induction false} FirstSelectedRuleDecides(q: string, rules: seq<KeywordRule>, i: nat)
    requires i < |rules| && Selects(rules[i], q)
    requires forall j :: 0 <= j < i ==> !Selects(rules[j], q)
    ensures RuleFragments(q, rules) == rules[i].fragments
    decreases i
  {
    if i > 0 {
      assert !Selects(rules[0], q);
      FirstSelectedRuleDecides(q, rules[1..], i - 1);
    }
  }

  /** A query no rule selects is looked for as it is. */
  lemma {:induction false} NoRuleSelected(q: string, rules: seq<KeywordRule>)
    requires forall rule :: rule in rules ==> !Selects(rule, q)
    ensures RuleFragments(q, rules) == [q]
    decreases |rules|
  {
    if rules != [] {
      assert rules[0] in rules;
      NoRuleSelected(q, rules[1..]);
    }
  }

  /** Which entries of the table a lowercased query selects. */
  lemma SelectsStreamRules(q: string)
    ensures Selects(StreamRules[0], q) <==> Contains(q, "engineering") || Contains(q, "technology")
    ensures Selects(StreamRules[1], q) <==> Contains(q, "medical") || Contains(q, "doctor")
    ensures Selects(StreamRules[2], q) <==> Contains(q, "science")
    ensures Selects(StreamRules[3], q) <==> Contains(q, "commerce") || Contains(q, "business")
    ensures Selects(StreamRules[4], q) <==> Contains(q, "architecture")
  {
    var rs := StreamRules;
    assert rs[0].keywords == ["engineering", "technology"];
    assert rs[1].keywords == ["medical", "doctor"];
    assert rs[2].keywords == ["science"];
    assert rs[3].keywords == ["commerce", "business"];
    assert rs[4].keywords == ["architecture"];
  }

  /** The fragments the table chooses for a lowercased query, rule by rule. */
  lemma ChosenFragments(q: string)
    ensures Selects(StreamRules[0], q) ==> RuleFragments(q, StreamRules) == ["b.tech", "b.e"]
    ensures !Selects(StreamRules[0], q) && Selects(StreamRules[1], q) ==>
      RuleFragments(q, StreamRules) == ["mbbs"]
    ensures (!Selects(StreamRules[0], q) && !Selects(StreamRules[1], q) && Selects(StreamRules[2], q)) ==>
      RuleFragments(q, StreamRules) == ["b.sc"]
    ensures (!Selects(StreamRules[0], q) && !Selects(StreamRules[1], q) && !Selects(StreamRules[2], q) &&
             Selects(StreamRules[3], q)) ==>
      RuleFragments(q, StreamRules) == ["b.com"]
    ensures (!Selects(StreamRules[0], q) && !Selects(StreamRules[1], q) && !Selects(StreamRules[2], q) &&
             !Selects(StreamRules[3], q) && Selects(StreamRules[4], q)) ==>
      RuleFragments(q, StreamRules) == ["b.arch"]
    ensures (!Selects(StreamRules[0], q) && !Selects(StreamRules[1], q) && !Selects(StreamRules[2], q) &&
             !Selects(StreamRules[3], q) && !Selects(StreamRules[4], q)) ==>
      RuleFragments(q, StreamRules) == [q]
  {
    var rs := StreamRules;
    if Selects(rs[0], q) {
      FirstSelectedRuleDecides(q, rs, 0);
    } else if Selects(rs[1], q) {
      FirstSelectedRuleDecides(q, rs, 1);
    } else if Selects(rs[2], q) {
      FirstSelectedRuleDecides(q, rs, 2);
    } else if Selects(rs[3], q) {
      FirstSelectedRuleDecides(q, rs, 3);
    } else if Selects(rs[4], q) {
      FirstSelectedRuleDecides(q, rs, 4);
    } else {
      NoRuleSelected(q, rs);
    }
  }

  lemma OneFragment(cs: string, r: seq<string>, f: string)
    requires r == [f]
    ensures (exists g :: g in r && Contains(cs, g)) <==> Contains(cs, f)
  {
    assert r[0] == f;
  }

  /** The if-chain is the first-match lookup in the rule table: a college
      matches exactly when its course name holds one of the chosen fragments. */
  lemma StreamMatchesFollowsTable(query: string, collegeStream: string)
    ensures StreamMatches(query, collegeStream) <==>
      exists f :: f in RuleFragments(Lower(query), StreamRules) && Contains(Lower(collegeStream), f)
  {
    var q, cs := Lower(query), Lower(collegeStream);
    assert StreamMatches(query, collegeStream) == LoweredMatches(q, cs);
    SelectsStreamRules(q);
    ChosenFragments(q);
    var r := RuleFragments(q, StreamRules);
    if Contains(q, "engineering") || Contains(q, "technology") {
      assert r == ["b.tech", "b.e"];
      if Contains(cs, "b.tech") {
        assert r[0] == "b.tech";
      }
      if Contains(cs, "b.e") {
        assert r[1] == "b.e";
      }
      if exists f :: f in r && Contains(cs, f) {
        var f :| f in r && Contains(cs, f);
        assert f == "b.tech" || f == "b.e";
      }
    } else if Contains(q, "medical") || Contains(q, "doctor") {
      OneFragment(cs, r, "mbbs");
    } else if Contains(q, "science") {
      OneFragment(cs, r, "b.sc");
    } else if Contains(q, "commerce") || Contains(q, "business") {
      OneFragment(cs, r, "b.com");
    } else if Contains(q, "architecture") {
      OneFragment(cs, r, "b.arch");
    } else {
      OneFragment(cs, r, q);
    }
  }

  lemma NamesTechnology()
    ensures Contains(Lower("Medical Technology"), "technology")
  {
    var q := Lower("Medical Technology");
    assert q == "medical technology";
    assert q[8..] == "technology";
    ContainsAt(q, "technology", 8);
  }

  lemma IsEngineeringCourse()
    ensures Contains(Lower("B.Tech/B.E"), "b.tech")
  {
    var yes := Lower("B.Tech/B.E");
    assert yes == "b.tech/b.e";
    ContainsAt(yes, "b.tech", 0);
  }

  lemma IsNotEngineeringCourse()
    ensures !Contains(Lower("MBBS"), "b.tech") && !Contains(Lower("MBBS"), "b.e")
  {
    var no := Lower("MBBS");
    assert no == "mbbs";
    forall i | 0 <= i <= |no| ensures !("b.e" <= no[i..]) && !("b.tech" <= no[i..]) {
      var rest := no[i..];
      if i == 0 {
        assert rest[0] == 'm';
      } else if i == 1 {
        assert rest[1] == 'b';
      } else {
        assert |rest| < 3;
      }
    }
    if Contains(no, "b.tech") {
      ContainsOccurs(no, "b.tech");
      assert false;
    }
    if Contains(no, "b.e") {
      ContainsOccurs(no, "b.e");
      assert false;
    }
  }

  /** An example of `FirstSelectedRuleDecides`: a query naming two streams
      follows the earlier rule, so "medical technology" selects engineering
      courses, not MBBS. */
  lemma EarlierRuleWins()
    ensures StreamMatches("Medical Technology", "B.Tech/B.E")
    ensures !StreamMatches("Medical Technology", "MBBS")
  {
    NamesTechnology();
    IsEngineeringCourse();
    IsNotEngineeringCourse();
  }

  // ---------------------------------------------------------------------
  // getFeeStatistics

  datatype FeeSummary = FeeSummary(min: int, max: int, average: int, median: int)

  function Below(m: int): int -> bool { (x: int) => x < m }
  function Above(m: int): int -> bool { (x: int) => x > m }

  /** The ascending copy of the fees: sorted, and a permutation of them. */
  lemma SortedFees(fees: seq<int>, sorted: seq<int>)
    requires sorted == Sort(fees, IntLeq)
    ensures |sorted| == |fees| && Sorted(sorted, IntLeq) && multiset(sorted) == multiset(fees)
    ensures forall x :: x in sorted <==> x in fees
  {
    IntOrderIsTotalPreorder();
    SortSorted(fees, IntLeq);
    SortPermutes(fees, IntLeq);
    assert |sorted| == |multiset(fees)| == |fees|;
    forall x ensures x in sorted <==> x in fees {
      assert x in sorted <==> x in multiset(sorted);
    }
  }

  /** The ends of an ascending copy are the least and greatest fee, and its
      middle entry is one of the fees. */
  lemma SortedEnds(fees: seq<int>, sorted: seq<int>)
    requires fees != [] && |sorted| == |fees| && Sorted(sorted, IntLeq)
    requires forall x :: x in sorted <==> x in fees
    ensures sorted[0] == SeqMin(fees) == SeqMin(sorted)
    ensures sorted[|sorted| - 1] == SeqMax(fees) == SeqMax(sorted)
    ensures sorted[|sorted| / 2] in fees && sorted[0] <= sorted[|sorted| / 2] <= sorted[|sorted| - 1]
  {
    var n := |sorted|;
    assert sorted[0] in sorted && sorted[n - 1] in sorted && sorted[n / 2] in sorted;
    forall x | x in sorted ensures sorted[0] <= x <= sorted[n - 1] {
      var i :| 0 <= i < n && sorted[i] == x;
    }
  }

  /** In an ascending list, at most `k` entries are below entry `k`. */
  lemma BelowRank(s: seq<int>, k: nat)
    requires Sorted(s, IntLeq) && k < |s|
    ensures |Filter(s, Below(s[k]))| <= k
  {
    var lo, hi := s[..k], s[k..];
    assert s == lo + hi;
    forall x | x in hi ensures !Below(s[k])(x) {
      var j :| 0 <= j < |hi| && hi[j] == x;
      assert s[k + j] == x;
      if j > 0 {
        assert IntLeq(s[k], s[k + j]);
      }
    }
    FilterConcat(lo, hi, Below(s[k]));
    FilterNone(hi, Below(s[k]));
  }

  /** In an ascending list, at most `|s| - k - 1` entries are above entry `k`. */
  lemma AboveRank(s: seq<int>, k: nat)
    requires Sorted(s, IntLeq) && k < |s|
    ensures |Filter(s, Above(s[k]))| <= |s| - k - 1
  {
    var lo, hi := s[..k + 1], s[k + 1..];
    assert s == lo + hi;
    forall x | x in lo ensures !Above(s[k])(x) {
      var j :| 0 <= j < |lo| && lo[j] == x;
      assert s[j] == x;
      if j < k {
        assert IntLeq(s[j], s[k]);
      }
    }
    FilterConcat(lo, hi, Above(s[k]));
    FilterNone(lo, Above(s[k]));
  }

  /** Permuting a list changes no filter's count. */
  lemma FilterCountPermutation(s: seq<int>, t: seq<int>, p: int -> bool)
    requires multiset(s) == multiset(t)
    ensures |Filter(s, p)| == |Filter(t, p)|
  {
    FilterPermutation(s, t, p);
    assert |Filter(s, p)| == |multiset(Filter(s, p))|;
    assert |Filter(t, p)| == |multiset(Filter(t, p))|;
  }

  /** The rounded mean of the sorted copy is the rounded mean of the fees. */
  lemma SortedMean(fees: seq<int>, sorted: seq<int>)
    requires fees != [] && |sorted| == |fees| && multiset(sorted) == multiset(fees)
    requires forall x :: x in sorted ==> x >= 0
    ensures Sum(sorted) >= 0
    ensures RoundsMean(RoundedQuotient(Sum(sorted), |sorted|), fees)
  {
    MeanBetween(sorted);
    SumPermutation(sorted, fees);
    RoundedMean(sorted);
  }

  /** The statistics over the fees of the matching colleges: none for no
      college; otherwise the least and greatest fee, the rounded mean and the
      upper median, at most half of the fees lying below it and at most half
      above. */
  function FeeStatisticsOf(fees: seq<int>): (r: Option<FeeSummary>)
    requires forall f :: f in fees ==> f >= 0
    ensures r.None? <==> fees == []
    ensures r.Some? ==> r.value.min == SeqMin(fees) && r.value.max == SeqMax(fees)
    ensures r.Some? ==> r.value.min <= r.value.average <= r.value.max
    ensures r.Some? ==> RoundsMean(r.value.average, fees)
    ensures r.Some? ==> r.value.median in fees && r.value.min <= r.value.median <= r.value.max
    ensures r.Some? ==> |Filter(fees, Below(r.value.median))| <= |fees| / 2
    ensures r.Some? ==> |Filter(fees, Above(r.value.median))| <= |fees| - |fees| / 2 - 1
  {
    if fees == [] then None
    else
      var sorted := Sort(fees, IntLeq);
      var n := |sorted|;
      SortedFees(fees, sorted);
      SortedEnds(fees, sorted);
      MeanBetween(sorted);
      SortedMean(fees, sorted);
      BelowRank(sorted, n / 2);
      AboveRank(sorted, n / 2);
      FilterCountPermutation(fees, sorted, Below(sorted[n / 2]));
      FilterCountPermutation(fees, sorted, Above(sorted[n / 2]));
      Some(FeeSummary(sorted[0], sorted[n - 1], RoundedQuotient(Sum(sorted), n), sorted[n / 2]))
  }

  // ---------------------------------------------------------------------
  // The service

  /** What loading yields: the parsed rows, or nothing when parsing throws. */
  function Catalogue(csv: string): seq<CsvCollege>
  {
    var parsed := Parsed(csv);
    if parsed.Ok? then parsed.value else []
  }

  /** `colleges.map(college => college.Stream)`. */
  function StreamNames(rows: seq<CsvCollege>): (r: seq<string>)
    ensures |r| == |rows| && forall i :: 0 <= i < |rows| ==> r[i] == FieldOf(rows[i], "Stream")
  {
    seq(|rows|, i requires 0 <= i < |rows| => FieldOf(rows[i], "Stream"))
  }

  lemma StreamNamesMembers(rows: seq<CsvCollege>)
    ensures forall s :: s in StreamNames(rows) <==> exists c :: c in rows && FieldOf(c, "Stream") == s
  {
    var names := StreamNames(rows);
    forall s ensures s in names <==> exists c :: c in rows && FieldOf(c, "Stream") == s {
      if exists c :: c in rows && FieldOf(c, "Stream") == s {
        var c :| c in rows && FieldOf(c, "Stream") == s;
        var i :| 0 <= i < |rows| && rows[i] == c;
        assert names[i] == s;
      }
    }
  }

  function ByCourse(stream: string): CsvCollege -> bool
  {
    (c: CsvCollege) => StreamMatches(stream, FieldOf(c, "Stream"))
  }

  function InState(state: string): CsvCollege -> bool
  {
    (c: CsvCollege) => Lower(FieldOf(c, "State")) == Lower(state)
  }

  function FeesOf(rows: seq<CsvCollege>): (fees: seq<int>)
    ensures |fees| == |rows| && forall k :: 0 <= k < |rows| ==> fees[k] == rows[k].feeAmount
    ensures forall f :: f in fees ==> f >= 0
  {
    seq(|rows|, k requires 0 <= k < |rows| => rows[k].feeAmount)
  }

  /** The state query ignores case: two spellings that lowercase alike select
      the same colleges. */
  lemma {:induction false} StateQueryIgnoresCase(rows: seq<CsvCollege>, s: string, t: string)
    requires Lower(s) == Lower(t)
    ensures Filter(rows, InState(s)) == Filter(rows, InState(t))
    decreases |rows|
  {
    if rows != [] {
      StateQueryIgnoresCase(rows[1..], s, t);
    }
  }

  /** The singleton service: the embedded CSV text, the parsed colleges and
      whether they have been loaded. */
  class CsvCatalogue {
    const csvData: string
    var colleges: seq<CsvCollege>
    var isLoaded: bool

    /** The cache holds either nothing or exactly the parse of the text. */
    ghost predicate Valid()
      reads this
    {
      (isLoaded ==> Parsed(csvData) == Ok(colleges)) && (!isLoaded ==> colleges == [])
    }

    constructor(csvData: string)
      ensures this.csvData == csvData && colleges == [] && !isLoaded
      ensures Valid()
    {
      this.csvData := csvData;
      colleges := [];
      isLoaded := false;
    }

    /** `loadCollegesFromCSV`: parse once and cache; a throwing parse yields
        no colleges and leaves the cache empty, so the next call tries again. */
    method LoadCollegesFromCSV() returns (r: seq<CsvCollege>)
      requires Valid()
      modifies this
      ensures Valid()
      ensures r == Catalogue(csvData)
      ensures isLoaded <==> Parsed(csvData).Ok?
      ensures old(isLoaded) ==> colleges == old(colleges)
    {
      if isLoaded {
        return colleges;
      }
      var parsed := ParseCSV(csvData);
      if parsed.Ok? {
        colleges := parsed.value;
        isLoaded := true;
        r := parsed.value;
      } else {
        r := [];
      }
    }

    /** `getCollegesByStream`: the loaded colleges passing the keyword rule,
        in their original order. */
    method GetCollegesByStream(stream: string) returns (r: seq<CsvCollege>)
      requires Valid()
      modifies this
      ensures Valid() && (isLoaded <==> Parsed(csvData).Ok?)
      ensures r == Filter(Catalogue(csvData), ByCourse(stream))
      ensures IsSubsequence(r, Catalogue(csvData))
    {
      var all := LoadCollegesFromCSV();
      r := Filter(all, ByCourse(stream));
      FilterIsSubsequence(all, ByCourse(stream));
    }

    /** `getAvailableStreams`: each course name of the catalogue once, in
        ascending order. */
    method GetAvailableStreams() returns (r: seq<string>)
      requires Valid()
      modifies this
      ensures Valid() && (isLoaded <==> Parsed(csvData).Ok?)
      ensures Sorted(r, StrLeq) && Distinct(r)
      ensures forall s :: s in r <==> exists c :: c in Catalogue(csvData) && FieldOf(c, "Stream") == s
    {
      var all := LoadCollegesFromCSV();
      StreamNamesMembers(all);
      r := UniqueSorted(StreamNames(all));
    }

    /** `getCollegesByState`: the loaded colleges whose state equals the
        argument ignoring case, in their original order. */
    method GetCollegesByState(state: string) returns (r: seq<CsvCollege>)
      requires Valid()
      modifies this
      ensures Valid() && (isLoaded <==> Parsed(csvData).Ok?)
      ensures r == Filter(Catalogue(csvData), InState(state))
      ensures forall c :: c in r <==> c in Catalogue(csvData) && Lower(FieldOf(c, "State")) == Lower(state)
    {
      var all := LoadCollegesFromCSV();
      r := Filter(all, InState(state));
    }

    /** `getFeeStatistics`: the fee statistics of the stream's colleges, none
        when no college matches. */
    method GetFeeStatistics(stream: string) returns (r: Option<FeeSummary>)
      requires Valid()
      modifies this
      ensures Valid() && (isLoaded <==> Parsed(csvData).Ok?)
      ensures r == FeeStatisticsOf(FeesOf(Filter(Catalogue(csvData), ByCourse(stream))))
      ensures r.None? <==> Filter(Catalogue(csvData), ByCourse(stream)) == []
    {
      var matching := GetCollegesByStream(stream);
      r := FeeStatisticsOf(FeesOf(matching));
    }
  }
}
