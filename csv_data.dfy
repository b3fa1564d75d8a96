/**
 * The cost table index and the material aggregator: parsing the cost CSV,
 * selecting rows by path and level, and folding rows into per-material totals.
 * The cost table itself is an explicit parameter (see README: the fetch and
 * its module-level cache are not part of this model).
 */
module CsvData {
  import opened Wrappers
  import opened JsStrings
  import opened Types
  import opened CollectionFacts

  // ---------------------------------------------------------------------------
  // parseCSV
  // ---------------------------------------------------------------------------

  /** A parsed cell: the numeric columns hold integers, every other column text. */
  datatype Field = Text(text: string) | Number(value: int)

  /** `.replace(/^"|"$/g, "")`: drops at most one leading and one trailing double quote, nothing else. */
  function StripQuotes(s: string): (r: string)
    ensures |r| <= |s| <= |r| + 2
    ensures s != [] && s[0] == '"' ==> |r| < |s| && r == s[1..|r| + 1]
    ensures !(s != [] && s[0] == '"') ==> r == s[..|r|]
    ensures s != [] && s[|s| - 1] != '"' ==> r == s[|s| - |r|..]
    ensures |s| >= 2 && s[|s| - 1] == '"' ==> |r| < |s| && r == s[|s| - 1 - |r|..|s| - 1]
    ensures s != [] && s[0] != '"' && s[|s| - 1] != '"' ==> r == s
    ensures |s| >= 2 && s[0] == '"' && s[|s| - 1] == '"' ==> r == s[1..|s| - 1]
    ensures '"' !in s ==> r == s
  {
    var i := if s != [] && s[0] == '"' then 1 else 0;
    var j := if i < |s| && s[|s| - 1] == '"' then |s| - 1 else |s|;
    assert s != [] ==> s[0] in s && s[|s| - 1] in s;
    s[i..j]
  }

  /** A value wrapped in one pair of quotes comes back unwrapped, whatever it holds. */
  lemma StripQuotesOfQuoted(x: string)
    ensures StripQuotes("\"" + x + "\"") == x
  {
    var q := "\"" + x + "\"";
    assert q[1..] == x + "\"";
    assert (x + "\"")[..|x|] == x;
  }

  /** `val.trim().replace(/^"|"$/g, "")`: one cell of a split line. */
  function CleanValue(val: string): string {
    StripQuotes(Trim(val))
  }

  /** The cleaned cells of one data line: `line.split(",").map(...)`. */
  function LineValues(line: string): (values: seq<string>)
    ensures |values| == |Split(line, ',')| >= 1
    ensures forall i :: 0 <= i < |values| ==> values[i] == CleanValue(Split(line, ',')[i])
  {
    var parts := Split(line, ',');
    seq(|parts|, i requires 0 <= i < |parts| => CleanValue(parts[i]))
  }

  /** The lines after the header: `csvText.trim().split("\n").slice(1)`. */
  function DataLines(csvText: string): (lines: seq<string>)
    ensures |lines| == |Split(Trim(csvText), '\n')| - 1
    ensures forall i :: 0 <= i < |lines| ==> lines[i] == Split(Trim(csvText), '\n')[i + 1]
  {
    Split(Trim(csvText), '\n')[1..]
  }

  /** `values[index] || ""`: a missing column reads as the empty string. */
  function Cell(values: seq<string>, index: nat): (r: string)
    ensures index < |values| ==> r == values[index]
    ensures index >= |values| ==> r == ""
  {
    if index < |values| then values[index] else ""
  }

  /** `Number.parseInt(value) || 0`: a value that is not a number reads as 0. */
  function ToInteger(value: string): (r: int)
    ensures ParseInt(value).Some? ==> r == ParseInt(value).value
    ensures ParseInt(value).None? ==> r == 0
  {
    ParseInt(value).GetOr(0)
  }

  /** A number written by `${n}` reads back as itself, and an empty cell reads as 0. */
  lemma ToIntegerOfRendering(n: nat)
    ensures ToInteger(NatToString(n)) == n
    ensures ToInteger("") == 0
  {
    ParseIntNatToString(n);
    assert ParseInt("") == None by {
      assert TrimStart("") == "";
      assert UnsignedPart("") == "";
    }
  }

  predicate IsNumericHeader(header: string) {
    header == "level" || header == "amount"
  }

  /** The value stored under `header`: a number for the numeric columns, the text otherwise. */
  function Coerce(header: string, value: string): Field {
    if IsNumericHeader(header) then Number(ToInteger(value)) else Text(value)
  }

  /**
   * The object built for one line after `headers.forEach` has assigned the
   * first `|headers|` columns: each assignment overwrites the one before it.
   */
  function RecordOf(values: seq<string>, headers: seq<string>): (r: map<string, Field>)
    ensures forall k :: k in r ==> (r[k].Number? <==> IsNumericHeader(k))
  {
    if headers == [] then map[]
    else
      var n := |headers| - 1;
      RecordOf(values, headers[..n])[headers[n] := Coerce(headers[n], Cell(values, n))]
  }

  /** The record's keys are exactly the header names. */
  lemma {:induction false} RecordOfKeys(values: seq<string>, headers: seq<string>)
    ensures RecordOf(values, headers).Keys == set h | h in headers
  {
    if headers != [] {
      var n := |headers| - 1;
      RecordOfKeys(values, headers[..n]);
      assert headers == headers[..n] + [headers[n]];
    }
  }

  /** Under each header name sits the coerced cell of the LAST column carrying that name. */
  lemma {:induction false} RecordOfLastWins(values: seq<string>, headers: seq<string>, j: nat)
    requires j < |headers|
    requires forall k :: j < k < |headers| ==> headers[k] != headers[j]
    ensures headers[j] in RecordOf(values, headers)
    ensures RecordOf(values, headers)[headers[j]] == Coerce(headers[j], Cell(values, j))
  {
    var n := |headers| - 1;
    var prefix := RecordOf(values, headers[..n]);
    assert RecordOf(values, headers) == prefix[headers[n] := Coerce(headers[n], Cell(values, n))];
    if j < n {
      RecordOfLastWins(values, headers[..n], j);
      assert headers[..n][j] == headers[j] != headers[n];
    }
  }

  /** `headers.forEach((header, index) => { obj[header] = ... })`: fills the record one column at a time. */
  method BuildRecord(values: seq<string>, headers: seq<string>) returns (obj: map<string, Field>)
    ensures obj == RecordOf(values, headers)
  {
    obj := map[];
    for index := 0 to |headers|
      invariant obj == RecordOf(values, headers[..index])
    {
      var header := headers[index];
      var value := Cell(values, index);
      if IsNumericHeader(header) {
        obj := obj[header := Number(ToInteger(value))];
      } else {
        obj := obj[header := Text(value)];
      }
      assert headers[..index + 1][..index] == headers[..index];
    }
    assert headers[..|headers|] == headers;
  }

  /** The record `dataLines.map` makes of one line. */
  function LineRecord(line: string, headers: seq<string>): map<string, Field> {
    RecordOf(LineValues(line), headers)
  }

  /** The callback of `dataLines.map`: splits and cleans one line, then fills the record. */
  method ParseLine(line: string, headers: seq<string>) returns (obj: map<string, Field>)
    ensures obj == LineRecord(line, headers)
  {
    var values := LineValues(line);
    obj := BuildRecord(values, headers);
  }

  /** The records `dataLines.map` produces from `lines`, in line order. */
  function ParsedRecords(lines: seq<string>, headers: seq<string>): (records: seq<map<string, Field>>)
    ensures |records| == |lines|
  {
    if lines == [] then []
    else ParsedRecords(lines[..|lines| - 1], headers) + [LineRecord(lines[|lines| - 1], headers)]
  }

  /** The i-th record is made of the i-th line alone. */
  lemma {:induction false} ParsedRecordsAt(lines: seq<string>, headers: seq<string>, i: nat)
    requires i < |lines|
    ensures ParsedRecords(lines, headers)[i] == LineRecord(lines[i], headers)
  {
    var n := |lines| - 1;
    if i < n {
      ParsedRecordsAt(lines[..n], headers, i);
    }
  }

  /** `parseCSV(csvText, headers)`: one record per line after the header line, in line order. */
  method ParseCSV(csvText: string, headers: seq<string>) returns (records: seq<map<string, Field>>)
    ensures |records| == |DataLines(csvText)| == |Split(Trim(csvText), '\n')| - 1
    ensures forall i :: 0 <= i < |records| ==> records[i] == LineRecord(DataLines(csvText)[i], headers)
  {
    var dataLines := DataLines(csvText);
    records := [];
    for i := 0 to |dataLines|
      invariant records == ParsedRecords(dataLines[..i], headers)
    {
      var obj := ParseLine(dataLines[i], headers);
      records := records + [obj];
      assert dataLines[..i + 1][..i] == dataLines[..i];
    }
    assert dataLines[..|dataLines|] == dataLines;
    forall i | 0 <= i < |records|
      ensures records[i] == LineRecord(dataLines[i], headers)
    {
      ParsedRecordsAt(dataLines, headers, i);
    }
  }

  /** The column list the cost table is parsed with. */
  const UpgradeHeaders: seq<string> := ["path", "material", "level", "amount"]

  function TextField(rec: map<string, Field>, key: string): string {
    if key in rec && rec[key].Text? then rec[key].text else ""
  }

  function NumberField(rec: map<string, Field>, key: string): int {
    if key in rec && rec[key].Number? then rec[key].value else 0
  }

  /** Reading a parsed record as an UpgradeCost (the `as T` cast). */
  function AsUpgradeCost(rec: map<string, Field>): UpgradeCost {
    UpgradeCost(TextField(rec, "path"), TextField(rec, "material"),
                NumberField(rec, "level"), NumberField(rec, "amount"))
  }

  /** The four cost columns of one line, read by position. */
  lemma UpgradeRecord(values: seq<string>)
    ensures AsUpgradeCost(RecordOf(values, UpgradeHeaders))
         == UpgradeCost(Cell(values, 0), Cell(values, 1), ToInteger(Cell(values, 2)), ToInteger(Cell(values, 3)))
  {
    var rec := RecordOf(values, UpgradeHeaders);
    assert rec["path"] == Text(Cell(values, 0)) by {
      UpgradeHeadersDistinct();
      RecordOfLastWins(values, UpgradeHeaders, 0);
    }
    assert rec["material"] == Text(Cell(values, 1)) by {
      UpgradeHeadersDistinct();
      RecordOfLastWins(values, UpgradeHeaders, 1);
    }
    assert rec["level"] == Number(ToInteger(Cell(values, 2))) by {
      UpgradeHeadersDistinct();
      RecordOfLastWins(values, UpgradeHeaders, 2);
    }
    assert rec["amount"] == Number(ToInteger(Cell(values, 3))) by {
      RecordOfLastWins(values, UpgradeHeaders, 3);
    }
  }

  lemma UpgradeHeadersDistinct()
    ensures forall i, k :: 0 <= i < k < |UpgradeHeaders| ==> UpgradeHeaders[i] != UpgradeHeaders[k]
  {
    assert UpgradeHeaders[0] == "path" && UpgradeHeaders[1] == "material";
    assert UpgradeHeaders[2] == "level" && UpgradeHeaders[3] == "amount";
  }

  /**
   * `parseCSV<UpgradeCost>(csvText, ["path", "material", "level", "amount"])`:
   * one row per data line; the header line is never a row.
   */
  method ParseUpgradeCosts(csvText: string) returns (table: seq<UpgradeCost>)
    ensures |table| == |Split(Trim(csvText), '\n')| - 1
    ensures forall i :: 0 <= i < |table| ==>
      var values := LineValues(DataLines(csvText)[i]);
      table[i] == UpgradeCost(Cell(values, 0), Cell(values, 1), ToInteger(Cell(values, 2)), ToInteger(Cell(values, 3)))
  {
    var records := ParseCSV(csvText, UpgradeHeaders);
    table := seq(|records|, i requires 0 <= i < |records| => AsUpgradeCost(records[i]));
    forall i | 0 <= i < |table|
      ensures var values := LineValues(DataLines(csvText)[i]);
        table[i] == UpgradeCost(Cell(values, 0), Cell(values, 1), ToInteger(Cell(values, 2)), ToInteger(Cell(values, 3)))
    {
      UpgradeRecord(LineValues(DataLines(csvText)[i]));
    }
  }

  // ---------------------------------------------------------------------------
  // Cost table index
  // ---------------------------------------------------------------------------

  /** The selection rule of getUpgradeCostsToLevel: exact path, level in `(fromLevel, toLevel]`. */
  predicate InLevelRange(cost: UpgradeCost, path: string, fromLevel: int, toLevel: int) {
    cost.path == path && cost.level > fromLevel && cost.level <= toLevel
  }

  /** `getUpgradeCostsToLevel(path, fromLevel, toLevel)` over the table `upgradeCosts`. */
  function GetUpgradeCostsToLevel(upgradeCosts: seq<UpgradeCost>, path: string, fromLevel: int, toLevel: int)
    : (r: seq<UpgradeCost>)
    ensures |r| <= |upgradeCosts|
    ensures forall c :: c in r ==> c in upgradeCosts && InLevelRange(c, path, fromLevel, toLevel)
    ensures forall c :: c in upgradeCosts && InLevelRange(c, path, fromLevel, toLevel) ==> c in r
    ensures fromLevel >= toLevel ==> r == []
  {
    if upgradeCosts == [] then []
    else
      var head := if InLevelRange(upgradeCosts[0], path, fromLevel, toLevel) then [upgradeCosts[0]] else [];
      head + GetUpgradeCostsToLevel(upgradeCosts[1..], path, fromLevel, toLevel)
  }

  /** Selection distributes over concatenation of tables: the rows keep their table order. */
  lemma {:induction false} CostsToLevelConcat(a: seq<UpgradeCost>, b: seq<UpgradeCost>, path: string, fromLevel: int, toLevel: int)
    ensures GetUpgradeCostsToLevel(a + b, path, fromLevel, toLevel)
         == GetUpgradeCostsToLevel(a, path, fromLevel, toLevel) + GetUpgradeCostsToLevel(b, path, fromLevel, toLevel)
  {
    if a != [] {
      var head := if InLevelRange(a[0], path, fromLevel, toLevel) then [a[0]] else [];
      var restA := GetUpgradeCostsToLevel(a[1..], path, fromLevel, toLevel);
      var restB := GetUpgradeCostsToLevel(b, path, fromLevel, toLevel);
      CostsToLevelConcat(a[1..], b, path, fromLevel, toLevel);
      HeadAndTail(a, b);
      assert GetUpgradeCostsToLevel(a + b, path, fromLevel, toLevel) == head + (restA + restB);
      assert GetUpgradeCostsToLevel(a, path, fromLevel, toLevel) == head + restA;
      AppendTwo(head, restA, restB);
    } else {
      assert a + b == b;
    }
  }

  /** Every selected row is kept as often as the table holds it, every other row is dropped. */
  lemma {:induction false} CostsToLevelCount(upgradeCosts: seq<UpgradeCost>, path: string, fromLevel: int, toLevel: int, c: UpgradeCost)
    ensures multiset(GetUpgradeCostsToLevel(upgradeCosts, path, fromLevel, toLevel))[c]
         == if InLevelRange(c, path, fromLevel, toLevel) then multiset(upgradeCosts)[c] else 0
  {
    if upgradeCosts != [] {
      CostsToLevelCount(upgradeCosts[1..], path, fromLevel, toLevel, c);
      MultisetOfHeadAndTail(upgradeCosts);
    }
  }

  /** For `a <= b <= c`, the rows of `(a, c]` are those of `(a, b]` together with those of `(b, c]`. */
  lemma {:induction false} RangeSplit(upgradeCosts: seq<UpgradeCost>, path: string, a: int, b: int, c: int)
    requires a <= b <= c
    ensures multiset(GetUpgradeCostsToLevel(upgradeCosts, path, a, c))
         == multiset(GetUpgradeCostsToLevel(upgradeCosts, path, a, b) + GetUpgradeCostsToLevel(upgradeCosts, path, b, c))
  {
    if upgradeCosts != [] {
      RangeSplit(upgradeCosts[1..], path, a, b, c);
    }
  }

  /** `getUpgradeCost(path, level)` over the table `upgradeCosts`. */
  function GetUpgradeCost(upgradeCosts: seq<UpgradeCost>, path: string, level: int): (r: seq<UpgradeCost>)
    ensures forall c :: c in r ==> c in upgradeCosts && c.path == path && c.level == level
    ensures forall c :: c in upgradeCosts && c.path == path && c.level == level ==> c in r
  {
    if upgradeCosts == [] then []
    else
      var head := if upgradeCosts[0].path == path && upgradeCosts[0].level == level then [upgradeCosts[0]] else [];
      head + GetUpgradeCost(upgradeCosts[1..], path, level)
  }

  /** The rows at one level are the rows of the one-level range that ends there. */
  lemma {:induction false} GetUpgradeCostIsUnitRange(upgradeCosts: seq<UpgradeCost>, path: string, level: int)
    ensures GetUpgradeCost(upgradeCosts, path, level) == GetUpgradeCostsToLevel(upgradeCosts, path, level - 1, level)
  {
    if upgradeCosts != [] {
      GetUpgradeCostIsUnitRange(upgradeCosts[1..], path, level);
    }
  }

  // ---------------------------------------------------------------------------
  // Material aggregator
  // ---------------------------------------------------------------------------

  /** Sum of the amounts of the rows whose material is `material`. */
  function AmountOf(rows: seq<UpgradeCost>, material: string): int {
    if rows == [] then 0
    else
      var last := rows[|rows| - 1];
      AmountOf(rows[..|rows| - 1], material) + (if last.material == material then last.amount else 0)
  }

  /** The materials that occur in `rows`. */
  function Materials(rows: seq<UpgradeCost>): set<string> {
    set c | c in rows :: c.material
  }

  /** The reference summary: one key per material that occurs, holding the sum of its amounts. */
  function MaterialTotals(rows: seq<UpgradeCost>): (r: map<string, int>)
    ensures r.Keys == set c | c in rows :: c.material
    ensures forall m :: m in r ==> r[m] == AmountOf(rows, m)
  {
    map m | m in Materials(rows) :: AmountOf(rows, m)
  }

  /** Per-material sum of two summaries; a material missing from one side counts as 0 there. */
  function MergeTotals(x: map<string, int>, y: map<string, int>): (r: map<string, int>)
    ensures r.Keys == x.Keys + y.Keys
  {
    map m | m in x.Keys + y.Keys :: (if m in x then x[m] else 0) + (if m in y then y[m] else 0)
  }

  lemma {:induction false} AmountOfAbsent(rows: seq<UpgradeCost>, material: string)
    requires material !in Materials(rows)
    ensures AmountOf(rows, material) == 0
  {
    if rows != [] {
      var n := |rows| - 1;
      assert Materials(rows[..n]) <= Materials(rows) by {
        forall c | c in rows[..n] ensures c in rows { }
      }
      AmountOfAbsent(rows[..n], material);
    }
  }

  lemma {:induction false} AmountOfConcat(a: seq<UpgradeCost>, b: seq<UpgradeCost>, material: string)
    ensures AmountOf(a + b, material) == AmountOf(a, material) + AmountOf(b, material)
  {
    if b == [] {
      assert a + b == a;
    } else {
      var n := |b| - 1;
      AmountOfConcat(a, b[..n], material);
      assert (a + b)[..|a + b| - 1] == a + b[..n];
    }
  }

  /** The amount of a material does not depend on the order of the rows. */
  lemma {:induction false} AmountOfPermutation(a: seq<UpgradeCost>, b: seq<UpgradeCost>, material: string)
    requires multiset(a) == multiset(b)
    ensures AmountOf(a, material) == AmountOf(b, material)
    decreases |a|
  {
    if a == [] {
      assert |b| == |multiset(b)| == 0;
    } else {
      var n := |a| - 1;
      var x := a[n];
      assert x in multiset(b) by {
        assert x in multiset(a);
      }
      var k :| 0 <= k < |b| && b[k] == x;
      var rest := b[..k] + b[k + 1..];
      RemoveMatching(a, b, k);
      AmountOfPermutation(a[..n], rest, material);
      AmountOfRemove(b, k, material);
      AmountOfConcat(a[..n], [x], material);
      assert a[..n] + [x] == a;
    }
  }

  /** Taking the last row off one permutation and a matching row off the other leaves two permutations. */
  lemma RemoveMatching(a: seq<UpgradeCost>, b: seq<UpgradeCost>, k: nat)
    requires multiset(a) == multiset(b) && a != [] && k < |b| && b[k] == a[|a| - 1]
    ensures multiset(a[..|a| - 1]) == multiset(b[..k] + b[k + 1..])
  {
    var n := |a| - 1;
    var x := a[n];
    assert b == b[..k] + [x] + b[k + 1..];
    assert a == a[..n] + [x];
    assert multiset(b) == multiset(b[..k]) + multiset{x} + multiset(b[k + 1..]);
    assert multiset(a) == multiset(a[..n]) + multiset{x};
    var rest := b[..k] + b[k + 1..];
    assert multiset(rest) == multiset(b[..k]) + multiset(b[k + 1..]);
    forall y ensures multiset(a[..n])[y] == multiset(rest)[y] {
      assert multiset(a)[y] == multiset(b)[y];
    }
  }

  /** Taking one row out of the rows takes its amount out of the total. */
  lemma AmountOfRemove(b: seq<UpgradeCost>, k: nat, material: string)
    requires k < |b|
    ensures AmountOf(b, material) == AmountOf(b[..k] + b[k + 1..], material) + AmountOf([b[k]], material)
  {
    assert b == b[..k] + ([b[k]] + b[k + 1..]);
    AmountOfConcat(b[..k], [b[k]] + b[k + 1..], material);
    AmountOfConcat([b[k]], b[k + 1..], material);
    AmountOfConcat(b[..k], b[k + 1..], material);
  }

  /** The summary of no rows is empty. */
  lemma MaterialTotalsEmpty()
    ensures MaterialTotals([]) == map[]
  {
  }

  /** calculateTotalMaterials is order independent: permuting the rows leaves the summary unchanged. */
  lemma MaterialTotalsPermutation(a: seq<UpgradeCost>, b: seq<UpgradeCost>)
    requires multiset(a) == multiset(b)
    ensures MaterialTotals(a) == MaterialTotals(b)
  {
    assert Materials(a) == Materials(b) by {
      forall c | c in a ensures c in b { assert c in multiset(a); }
      forall c | c in b ensures c in a { assert c in multiset(b); }
    }
    forall m | m in Materials(a) ensures AmountOf(a, m) == AmountOf(b, m) {
      AmountOfPermutation(a, b, m);
    }
  }

  /** The summary of two row lists one after the other is the per-material sum of their summaries. */
  lemma MaterialTotalsConcat(a: seq<UpgradeCost>, b: seq<UpgradeCost>)
    ensures MaterialTotals(a + b) == MergeTotals(MaterialTotals(a), MaterialTotals(b))
  {
    assert Materials(a + b) == Materials(a) + Materials(b) by {
      forall c | c in a + b ensures c in a || c in b { }
    }
    var whole := MaterialTotals(a + b);
    var merged := MergeTotals(MaterialTotals(a), MaterialTotals(b));
    assert whole.Keys == merged.Keys;
    forall m | m in whole
      ensures whole[m] == merged[m]
    {
      AmountOfConcat(a, b, m);
      if m !in Materials(a) { AmountOfAbsent(a, m); }
      if m !in Materials(b) { AmountOfAbsent(b, m); }
    }
    MapsEqual(whole, merged);
  }

  /** Range additivity: for `a <= b <= c`, the summary over `(a, c]` is the per-material sum of those over `(a, b]` and `(b, c]`. */
  lemma RangeAdditivity(upgradeCosts: seq<UpgradeCost>, path: string, a: int, b: int, c: int)
    requires a <= b <= c
    ensures MaterialTotals(GetUpgradeCostsToLevel(upgradeCosts, path, a, c))
         == MergeTotals(MaterialTotals(GetUpgradeCostsToLevel(upgradeCosts, path, a, b)),
                        MaterialTotals(GetUpgradeCostsToLevel(upgradeCosts, path, b, c)))
  {
    var low := GetUpgradeCostsToLevel(upgradeCosts, path, a, b);
    var high := GetUpgradeCostsToLevel(upgradeCosts, path, b, c);
    RangeSplit(upgradeCosts, path, a, b, c);
    MaterialTotalsPermutation(GetUpgradeCostsToLevel(upgradeCosts, path, a, c), low + high);
    MaterialTotalsConcat(low, high);
  }

  /** One more row adds its amount to its material's entry, creating the entry at 0 if absent. */
  lemma MaterialTotalsSnoc(rows: seq<UpgradeCost>, cost: UpgradeCost)
    ensures var before := MaterialTotals(rows);
      MaterialTotals(rows + [cost])
      == before[cost.material := (if cost.material in before then before[cost.material] else 0) + cost.amount]
  {
    var after := rows + [cost];
    assert after[..|after| - 1] == rows;
    assert Materials(after) == Materials(rows) + {cost.material} by {
      forall c | c in after ensures c in rows || c == cost { }
    }
    if cost.material !in Materials(rows) {
      AmountOfAbsent(rows, cost.material);
    }
  }

  /** One step of the fold: the summary of the first i + 1 rows from that of the first i. */
  lemma MaterialTotalsStep(rows: seq<UpgradeCost>, i: nat, before: map<string, int>)
    requires i < |rows| && before == MaterialTotals(rows[..i])
    ensures MaterialTotals(rows[..i + 1])
         == before[rows[i].material := (if rows[i].material in before then before[rows[i].material] else 0) + rows[i].amount]
  {
    MaterialTotalsSnoc(rows[..i], rows[i]);
    assert rows[..i + 1] == rows[..i] + [rows[i]];
  }

  /**
   * `calculateTotalMaterials(upgradeCosts)`: the falsy test
   * `if (totals[cost.material])` sends an entry that is still 0 down the
   * assignment branch, which gives the same sum as adding to 0.
   */
  method CalculateTotalMaterials(upgradeCosts: seq<UpgradeCost>) returns (totals: map<string, int>)
    ensures totals.Keys == set c | c in upgradeCosts :: c.material
    ensures forall m :: m in totals ==> totals[m] == AmountOf(upgradeCosts, m)
    ensures totals == MaterialTotals(upgradeCosts)
  {
    totals := map[];
    for i := 0 to |upgradeCosts|
      invariant totals == MaterialTotals(upgradeCosts[..i])
    {
      var cost := upgradeCosts[i];
      ghost var expected := totals[cost.material := (if cost.material in totals then totals[cost.material] else 0) + cost.amount];
      MaterialTotalsStep(upgradeCosts, i, totals);
      if cost.material in totals && totals[cost.material] != 0 {
        totals := totals[cost.material := totals[cost.material] + cost.amount];
      } else {
        totals := totals[cost.material := cost.amount];
      }
      assert totals == expected;
    }
    assert upgradeCosts[..|upgradeCosts|] == upgradeCosts;
  }
}
