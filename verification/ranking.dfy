/** The two analysis steps of the pipeline: `step_classify` adds a
    `ministry` default and a `Category` column to the procurement table,
    and `step_aggregate` groups the classified rows by ministry, counts
    digital and office purchases, derives the shares and the score, and
    ranks the ministries by score. */
module Ranking {
  import opened Text

  // ---------------------------------------------------------------------
  // Categories

  /** The categories counted as digital. */
  const DigitalCategories: set<string> := {"SOFTWARE", "IT", "SECURITY", "TRAINING", "CLOUD"}

  /** The category counted against a ministry. */
  const OfficeCategory: string := "OFFICE"

  /** The label `classify_text` returns for a reply of the language model:
      the reply stripped of surrounding whitespace and upper-cased. */
  function CategoryOf(reply: string): (c: string)
    ensures forall i :: 0 <= i < |c| ==> !IsLower(c[i])
    ensures c != [] ==> !IsSpace(c[0]) && !IsSpace(c[|c| - 1])
    ensures |c| <= |reply|
  {
    Upper(Strip(reply))
  }

  lemma {:induction false} UpperKeepsUpper(s: string)
    requires forall i :: 0 <= i < |s| ==> !IsLower(s[i])
    ensures Upper(s) == s
  {
    assert forall i :: 0 <= i < |s| ==> Upper(s)[i] == s[i];
  }

  /** A label is its own label: normalising a reply twice changes nothing
      more than normalising it once. */
  lemma CategoryOfIdempotent(reply: string)
    ensures CategoryOf(CategoryOf(reply)) == CategoryOf(reply)
  {
    var c := CategoryOf(reply);
    StripKeepsTrimmed(c);
    UpperKeepsUpper(c);
    assert CategoryOf(c) == Upper(Strip(c));
  }

  // ---------------------------------------------------------------------
  // The procurement table and step_classify

  /** A table read from CSV: its column names, and one map from column
      name to cell text per row. */
  class Frame {
    var columns: seq<string>
    var rows: seq<map<string, string>>

    /** Column names are distinct and every row has exactly the columns. */
    ghost predicate Valid()
      reads this
    {
      && (forall i, j :: 0 <= i < j < |columns| ==> columns[i] != columns[j])
      && (forall r :: 0 <= r < |rows| ==> rows[r].Keys == set c | c in columns)
    }

    constructor (columns: seq<string>, rows: seq<map<string, string>>)
      requires forall i, j :: 0 <= i < j < |columns| ==> columns[i] != columns[j]
      requires forall r :: 0 <= r < |rows| ==> rows[r].Keys == set c | c in columns
      ensures Valid() && this.columns == columns && this.rows == rows
    {
      this.columns := columns;
      this.rows := rows;
    }

    /** `df[name] = values`: overwrites the column when it exists and
        appends it otherwise; every other cell is kept. */
    method SetColumn(name: string, values: seq<string>)
      requires Valid() && |values| == |rows|
      modifies this
      ensures Valid()
      ensures columns == if name in old(columns) then old(columns) else old(columns) + [name]
      ensures |rows| == |old(rows)|
      ensures forall r :: 0 <= r < |rows| ==> rows[r] == old(rows[r])[name := values[r]]
    {
      if name !in columns {
        columns := columns + [name];
      }
      var before := rows;
      rows := seq(|before|, r requires 0 <= r < |before| => before[r][name := values[r]]);
    }
  }

  /** The same text once per row: a scalar broadcast to a column. */
  function Fill(n: nat, v: string): (col: seq<string>)
    ensures |col| == n && forall i :: 0 <= i < n ==> col[i] == v
  {
    seq(n, i => v)
  }

  /** The `Category` column: the label of the model's reply to each
      description, in row order. */
  function Categories(classifier: string -> string, descriptions: seq<string>): (cats: seq<string>)
    ensures |cats| == |descriptions|
    ensures forall i :: 0 <= i < |cats| ==> cats[i] == CategoryOf(classifier(descriptions[i]))
  {
    seq(|descriptions|, i requires 0 <= i < |descriptions| => CategoryOf(classifier(descriptions[i])))
  }

  /** The cells of one column, in row order. */
  function Column(rows: seq<map<string, string>>, name: string): (col: seq<string>)
    requires forall r :: 0 <= r < |rows| ==> name in rows[r]
    ensures |col| == |rows| && forall r :: 0 <= r < |rows| ==> col[r] == rows[r][name]
  {
    seq(|rows|, r requires 0 <= r < |rows| => rows[r][name])
  }

  /** One row after `step_classify`: `ministry` = "UNKNOWN" when the table
      had no such column, and `Category` = the label of the reply to its
      description; every other cell is kept. */
  function ClassifiedRow(row: map<string, string>, addMinistry: bool, classifier: string -> string): (r: map<string, string>)
    requires "Description" in row
    ensures r.Keys == row.Keys + {"Category"} + (if addMinistry then {"ministry"} else {})
    ensures r["Category"] == CategoryOf(classifier(row["Description"]))
    ensures addMinistry ==> r["ministry"] == "UNKNOWN"
    ensures forall c :: c in row && c != "Category" && !(addMinistry && c == "ministry") ==> r[c] == row[c]
  {
    var withMinistry := if addMinistry then row["ministry" := "UNKNOWN"] else row;
    withMinistry["Category" := CategoryOf(classifier(row["Description"]))]
  }

  /** `step_classify` on the table read from CSV: without a `Description`
      column it raises RuntimeError before touching the table (ok is
      false); otherwise it adds `ministry` = "UNKNOWN" when that column is
      missing, then sets `Category` to the label of each description. The
      model's replies are given by `classifier`. */
  method StepClassify(df: Frame, classifier: string -> string) returns (ok: bool)
    requires df.Valid()
    modifies df
    ensures ok <==> "Description" in old(df.columns)
    ensures !ok ==> unchanged(df)
    ensures ok ==> df.Valid()
    ensures ok ==> df.columns == old(df.columns)
                                 + (if "ministry" in old(df.columns) then [] else ["ministry"])
                                 + (if "Category" in old(df.columns) then [] else ["Category"])
    ensures ok ==> |df.rows| == |old(df.rows)|
    ensures ok ==> forall r :: 0 <= r < |df.rows| ==>
                     df.rows[r] == ClassifiedRow(old(df.rows[r]), "ministry" !in old(df.columns), classifier)
  {
    if "Description" !in df.columns {
      return false;
    }
    if "ministry" !in df.columns {
      df.SetColumn("ministry", Fill(|df.rows|, "UNKNOWN"));
    }
    df.SetColumn("Category", Categories(classifier, Column(df.rows, "Description")));
    return true;
  }

  // ---------------------------------------------------------------------
  // Grouping keys: pandas groupby sorts them as Python compares strings

  /** Python's `a < b` on strings: lexicographic by code point. */
  predicate LexLess(a: string, b: string) {
    if a == [] then b != []
    else b != [] && (a[0] < b[0] || (a[0] == b[0] && LexLess(a[1..], b[1..])))
  }

  lemma {:induction false} LexLessIrreflexive(a: string)
    ensures !LexLess(a, a)
  {
    if a != [] {
      LexLessIrreflexive(a[1..]);
    }
  }

  lemma {:induction false} LexLessTransitive(a: string, b: string, c: string)
    requires LexLess(a, b) && LexLess(b, c)
    ensures LexLess(a, c)
  {
    if a != [] && a[0] == b[0] && b[0] == c[0] {
      LexLessTransitive(a[1..], b[1..], c[1..]);
    }
  }

  lemma {:induction false} LexLessTotal(a: string, b: string)
    ensures a == b || LexLess(a, b) || LexLess(b, a)
  {
    if a != [] && b != [] && a[0] == b[0] {
      LexLessTotal(a[1..], b[1..]);
      if a[1..] == b[1..] {
        assert a == [a[0]] + a[1..] && b == [b[0]] + b[1..];
      }
    }
  }

  predicate StrictlyAscending(keys: seq<string>) {
    forall i, j :: 0 <= i < j < |keys| ==> LexLess(keys[i], keys[j])
  }

  /** Inserts a key into a strictly ascending sequence of keys, unless it
      is already there. */
  function InsertKey(k: string, keys: seq<string>): (r: seq<string>)
    requires StrictlyAscending(keys)
    ensures StrictlyAscending(r)
    ensures forall x :: x in r <==> x == k || x in keys
  {
    if keys == [] then [k]
    else if k == keys[0] then keys
    else if LexLess(k, keys[0]) then
      assert forall j :: 0 <= j < |keys| ==> LexLess(k, keys[j]) by {
        forall j | 0 <= j < |keys| ensures LexLess(k, keys[j]) {
          if j > 0 { LexLessTransitive(k, keys[0], keys[j]); }
        }
      }
      [k] + keys
    else
      LexLessTotal(k, keys[0]);
      var rest := InsertKey(k, keys[1..]);
      assert forall x :: x in rest ==> LexLess(keys[0], x);
      [keys[0]] + rest
  }

  /** One classified row: its ministry and its category label. */
  datatype Record = Record(ministry: string, category: string)

  /** The group keys of `groupby("ministry")`: the distinct ministries in
      ascending order. */
  function GroupKeys(rows: seq<Record>): (keys: seq<string>)
    ensures StrictlyAscending(keys)
    ensures forall g :: g in keys <==> exists i :: 0 <= i < |rows| && rows[i].ministry == g
  {
    if rows == [] then []
    else
      var init := rows[..|rows| - 1];
      assert forall i :: 0 <= i < |init| ==> init[i] == rows[i];
      InsertKey(rows[|rows| - 1].ministry, GroupKeys(init))
  }

  /** Strictly ascending keys are distinct. */
  lemma AscendingKeysDistinct(keys: seq<string>)
    requires StrictlyAscending(keys)
    ensures forall i, j :: 0 <= i < j < |keys| ==> keys[i] != keys[j]
  {
    forall i, j | 0 <= i < j < |keys| ensures keys[i] != keys[j] {
      LexLessIrreflexive(keys[i]);
    }
  }

  // ---------------------------------------------------------------------
  // Counting

  /** `Total`: the rows of ministry g. */
  function Count(rows: seq<Record>, g: string): (n: nat)
    ensures n <= |rows|
  {
    if rows == [] then 0
    else Count(rows[..|rows| - 1], g) + if rows[|rows| - 1].ministry == g then 1 else 0
  }

  /** `Digital`: the rows of ministry g whose category is digital. */
  function DigitalCount(rows: seq<Record>, g: string): nat {
    if rows == [] then 0
    else
      var r := rows[|rows| - 1];
      DigitalCount(rows[..|rows| - 1], g) + if r.ministry == g && r.category in DigitalCategories then 1 else 0
  }

  /** `Office`: the rows of ministry g whose category is OFFICE. */
  function OfficeCount(rows: seq<Record>, g: string): nat {
    if rows == [] then 0
    else
      var r := rows[|rows| - 1];
      OfficeCount(rows[..|rows| - 1], g) + if r.ministry == g && r.category == OfficeCategory then 1 else 0
  }

  /** A ministry that occurs has at least one row. */
  lemma {:induction false} CountPositive(rows: seq<Record>, g: string, i: nat)
    requires i < |rows| && rows[i].ministry == g
    ensures Count(rows, g) >= 1
  {
    if i < |rows| - 1 {
      CountPositive(rows[..|rows| - 1], g, i);
    }
  }

  /** OFFICE is not a digital category, so no row is counted twice:
      Digital + Office <= Total. */
  lemma {:induction false} DigitalAndOfficeWithinTotal(rows: seq<Record>, g: string)
    ensures DigitalCount(rows, g) + OfficeCount(rows, g) <= Count(rows, g)
  {
    if rows != [] {
      DigitalAndOfficeWithinTotal(rows[..|rows| - 1], g);
      assert OfficeCategory !in DigitalCategories;
    }
  }

  /** When every row of g is OFFICE, Office is Total and Digital is 0. */
  lemma {:induction false} AllOfficeCounts(rows: seq<Record>, g: string)
    requires forall i :: 0 <= i < |rows| && rows[i].ministry == g ==> rows[i].category == OfficeCategory
    ensures OfficeCount(rows, g) == Count(rows, g) && DigitalCount(rows, g) == 0
  {
    if rows != [] {
      AllOfficeCounts(rows[..|rows| - 1], g);
      assert OfficeCategory !in DigitalCategories;
    }
  }

  /** When every row of g is digital, Digital is Total and Office is 0. */
  lemma {:induction false} AllDigitalCounts(rows: seq<Record>, g: string)
    requires forall i :: 0 <= i < |rows| && rows[i].ministry == g ==> rows[i].category in DigitalCategories
    ensures DigitalCount(rows, g) == Count(rows, g) && OfficeCount(rows, g) == 0
  {
    if rows != [] {
      AllDigitalCounts(rows[..|rows| - 1], g);
      assert OfficeCategory !in DigitalCategories;
    }
  }

  // ---------------------------------------------------------------------
  // The aggregated table

  /** One row of the aggregated table. */
  datatype Summary = Summary(ministry: string, total: nat, digital: nat, office: nat,
                             digitalShare: real, paperPenalty: real, score: real)

  /** `DigitalShare`, `PaperPenalty` and `Score` of one group, as exact
      rationals: Digital / Total, Office / Total and
      100 * DigitalShare - 20 * PaperPenalty. */
  function Scored(ministry: string, total: nat, digital: nat, office: nat): Summary
    requires total > 0
  {
    var share := digital as real / total as real;
    var penalty := office as real / total as real;
    Summary(ministry, total, digital, office, share, penalty, share * 100.0 - penalty * 20.0)
  }

  /** The aggregated row of ministry g, which has at least one row. */
  function Summarize(rows: seq<Record>, g: string): (s: Summary)
    requires Count(rows, g) > 0
    ensures s.ministry == g && s.total == Count(rows, g)
    ensures s.digital == DigitalCount(rows, g) && s.office == OfficeCount(rows, g)
  {
    Scored(g, Count(rows, g), DigitalCount(rows, g), OfficeCount(rows, g))
  }

  /** The aggregated rows of the given ministries, in their order. */
  function Summaries(rows: seq<Record>, keys: seq<string>): (out: seq<Summary>)
    requires forall k :: k in keys ==> Count(rows, k) > 0
    ensures |out| == |keys|
    ensures forall i :: 0 <= i < |keys| ==> out[i] == Summarize(rows, keys[i])
  {
    if keys == [] then []
    else Summaries(rows, keys[..|keys| - 1]) + [Summarize(rows, keys[|keys| - 1])]
  }

  /** Every group key has at least one row. */
  lemma GroupsAreInhabited(rows: seq<Record>)
    ensures forall k :: k in GroupKeys(rows) ==> Count(rows, k) > 0
  {
    forall k | k in GroupKeys(rows) ensures Count(rows, k) > 0 {
      var i :| 0 <= i < |rows| && rows[i].ministry == k;
      CountPositive(rows, k, i);
    }
  }

  /** The table `step_aggregate` returns: one row per distinct ministry, in
      ascending order of ministry. */
  function Aggregate(rows: seq<Record>): (out: seq<Summary>)
    ensures |out| == |GroupKeys(rows)|
    ensures forall i :: 0 <= i < |out| ==> out[i].ministry == GroupKeys(rows)[i]
    ensures forall i :: 0 <= i < |out| ==> Count(rows, out[i].ministry) > 0 && out[i] == Summarize(rows, out[i].ministry)
  {
    GroupsAreInhabited(rows);
    Summaries(rows, GroupKeys(rows))
  }

  /** The ministry column of a table. */
  function MinistriesOf(out: seq<Summary>): (ms: seq<string>)
    ensures |ms| == |out| && forall i :: 0 <= i < |out| ==> ms[i] == out[i].ministry
  {
    seq(|out|, i requires 0 <= i < |out| => out[i].ministry)
  }

  /** One aggregated row per distinct ministry of the input, in strictly
      ascending order of ministry. */
  lemma OneRowPerMinistry(rows: seq<Record>)
    ensures var ms := MinistriesOf(Aggregate(rows));
            && StrictlyAscending(ms)
            && (forall i, j :: 0 <= i < j < |ms| ==> ms[i] != ms[j])
            && (forall g :: g in ms <==> exists i :: 0 <= i < |rows| && rows[i].ministry == g)
  {
    var ms := MinistriesOf(Aggregate(rows));
    assert ms == GroupKeys(rows);
    AscendingKeysDistinct(ms);
  }

  /** Shares lie in [0, 1] and add up to at most 1; the score therefore
      lies in [-20, 100]. */
  lemma ScoreBounds(ministry: string, total: nat, digital: nat, office: nat)
    requires total > 0 && digital + office <= total
    ensures var s := Scored(ministry, total, digital, office);
            && 0.0 <= s.digitalShare <= 1.0
            && 0.0 <= s.paperPenalty <= 1.0
            && s.digitalShare + s.paperPenalty <= 1.0
            && -20.0 <= s.score <= 100.0
  {
    var t := total as real;
    FractionAtMostOne(digital as real, t);
    FractionAtMostOne(office as real, t);
    FractionAtMostOne((digital + office) as real, t);
    assert digital as real / t + office as real / t == (digital + office) as real / t;
  }

  lemma FractionAtMostOne(x: real, t: real)
    requires 0.0 <= x <= t && t > 0.0
    ensures 0.0 <= x / t <= 1.0
  {
    assert x / t * t == x;
  }

  /** Every row of the aggregated table obeys the bounds. */
  lemma AggregateBounds(rows: seq<Record>, i: nat)
    requires i < |Aggregate(rows)|
    ensures var s := Aggregate(rows)[i];
            && s.digital + s.office <= s.total
            && 0.0 <= s.digitalShare <= 1.0 && 0.0 <= s.paperPenalty <= 1.0
            && s.digitalShare + s.paperPenalty <= 1.0
            && -20.0 <= s.score <= 100.0
  {
    var s := Aggregate(rows)[i];
    DigitalAndOfficeWithinTotal(rows, s.ministry);
    ScoreBounds(s.ministry, s.total, s.digital, s.office);
  }

  /** The score at the two ends of the range: only office purchases give
      -20, only digital ones give 100. */
  lemma ScoredExtremes(ministry: string, total: nat, digital: nat, office: nat)
    requires total > 0
    ensures office == total && digital == 0 ==> Scored(ministry, total, digital, office).score == -20.0
    ensures digital == total && office == 0 ==> Scored(ministry, total, digital, office).score == 100.0
  {
    var t := total as real;
    assert t / t == 1.0;
  }

  /** A ministry that bought only office supplies scores -20; one that
      bought only digital goods scores 100. */
  lemma ExtremeScores(rows: seq<Record>, g: string)
    requires Count(rows, g) > 0
    ensures (forall j :: 0 <= j < |rows| && rows[j].ministry == g ==> rows[j].category == OfficeCategory)
            ==> Summarize(rows, g).score == -20.0
    ensures (forall j :: 0 <= j < |rows| && rows[j].ministry == g ==> rows[j].category in DigitalCategories)
            ==> Summarize(rows, g).score == 100.0
  {
    ScoredExtremes(g, Count(rows, g), DigitalCount(rows, g), OfficeCount(rows, g));
    if forall j :: 0 <= j < |rows| && rows[j].ministry == g ==> rows[j].category == OfficeCategory {
      AllOfficeCounts(rows, g);
    }
    if forall j :: 0 <= j < |rows| && rows[j].ministry == g ==> rows[j].category in DigitalCategories {
      AllDigitalCounts(rows, g);
    }
  }

  /** The sum of Total over the aggregated rows. */
  function SumTotals(out: seq<Summary>): nat {
    if out == [] then 0 else SumTotals(out[..|out| - 1]) + out[|out| - 1].total
  }

  /** The sum of Count(rows, k) over the keys. */
  function SumCounts(rows: seq<Record>, keys: seq<string>): nat {
    if keys == [] then 0 else SumCounts(rows, keys[..|keys| - 1]) + Count(rows, keys[|keys| - 1])
  }

  /** How many keys equal m. */
  function Occurrences(keys: seq<string>, m: string): nat {
    if keys == [] then 0 else Occurrences(keys[..|keys| - 1], m) + if keys[|keys| - 1] == m then 1 else 0
  }

  lemma {:induction false} SumCountsStep(rows: seq<Record>, r: Record, keys: seq<string>)
    ensures SumCounts(rows + [r], keys) == SumCounts(rows, keys) + Occurrences(keys, r.ministry)
  {
    if keys != [] {
      SumCountsStep(rows, r, keys[..|keys| - 1]);
      assert (rows + [r])[..|rows + [r]| - 1] == rows;
    }
  }

  lemma {:induction false} OccursOnce(keys: seq<string>, m: string)
    requires forall i, j :: 0 <= i < j < |keys| ==> keys[i] != keys[j]
    ensures Occurrences(keys, m) == if m in keys then 1 else 0
  {
    if keys != [] {
      var init := keys[..|keys| - 1];
      OccursOnce(init, m);
      assert keys == init + [keys[|keys| - 1]];
      if keys[|keys| - 1] == m {
        assert m !in init;
      }
    }
  }

  /** Over distinct keys that cover every ministry, the counts add up to
      the number of rows. */
  lemma {:induction false} CountsPartitionRows(rows: seq<Record>, keys: seq<string>)
    requires forall i, j :: 0 <= i < j < |keys| ==> keys[i] != keys[j]
    requires forall i :: 0 <= i < |rows| ==> rows[i].ministry in keys
    ensures SumCounts(rows, keys) == |rows|
  {
    if rows == [] {
      if keys != [] {
        CountsPartitionRows(rows, keys[..|keys| - 1]);
      }
    } else {
      var init := rows[..|rows| - 1];
      var r := rows[|rows| - 1];
      assert rows == init + [r];
      CountsPartitionRows(init, keys);
      SumCountsStep(init, r, keys);
      OccursOnce(keys, r.ministry);
    }
  }

  lemma {:induction false} SumTotalsIsSumCounts(rows: seq<Record>, keys: seq<string>)
    requires forall k :: k in keys ==> Count(rows, k) > 0
    ensures SumTotals(Summaries(rows, keys)) == SumCounts(rows, keys)
  {
    if keys != [] {
      var init := keys[..|keys| - 1];
      SumTotalsIsSumCounts(rows, init);
      var out := Summaries(rows, keys);
      assert out[..|out| - 1] == Summaries(rows, init);
    }
  }

  /** Every classified row is counted in exactly one group: the Totals add
      up to the number of rows. */
  lemma TotalsSumToRowCount(rows: seq<Record>)
    ensures SumTotals(Aggregate(rows)) == |rows|
  {
    var keys := GroupKeys(rows);
    AscendingKeysDistinct(keys);
    GroupsAreInhabited(rows);
    SumTotalsIsSumCounts(rows, keys);
    CountsPartitionRows(rows, keys);
  }

  /** Equal keys cannot be strictly ascending, so there is at most one. */
  lemma AscendingConstantIsShort(keys: seq<string>, v: string)
    requires StrictlyAscending(keys)
    requires forall i :: 0 <= i < |keys| ==> keys[i] == v
    ensures |keys| <= 1
  {
    LexLessIrreflexive(v);
    FirstTwoAscending(keys);
  }

  lemma FirstTwoAscending(keys: seq<string>)
    requires StrictlyAscending(keys)
    ensures |keys| >= 2 ==> LexLess(keys[0], keys[1])
  {
  }

  /** When every row has ministry "UNKNOWN" (the default `step_classify`
      adds), the table has the single group UNKNOWN holding all rows. */
  lemma SingleUnknownGroup(rows: seq<Record>)
    requires |rows| > 0
    requires forall i :: 0 <= i < |rows| ==> rows[i].ministry == "UNKNOWN"
    ensures |Aggregate(rows)| == 1
    ensures Aggregate(rows)[0].ministry == "UNKNOWN" && Aggregate(rows)[0].total == |rows|
  {
    var keys := GroupKeys(rows);
    assert "UNKNOWN" in keys;
    forall i | 0 <= i < |keys| ensures keys[i] == "UNKNOWN" {
      assert keys[i] in keys;
    }
    AscendingConstantIsShort(keys, "UNKNOWN");
    TotalsSumToRowCount(rows);
    assert Aggregate(rows)[..0] == [];
  }

  // ---------------------------------------------------------------------
  // Ranking by score

  predicate ScoreNonIncreasing(s: seq<Summary>) {
    forall i, j :: 0 <= i < j < |s| ==> s[i].score >= s[j].score
  }

  /** Inserts one row into a ranking, before the first row that scores
      lower. */
  function InsertByScore(x: Summary, ranked: seq<Summary>): (r: seq<Summary>)
    ensures multiset(r) == multiset(ranked) + multiset{x}
    ensures |r| == |ranked| + 1
    ensures r[0] == x || (ranked != [] && r[0] == ranked[0])
  {
    if ranked == [] then [x]
    else if x.score >= ranked[0].score then [x] + ranked
    else
      assert ranked == [ranked[0]] + ranked[1..];
      [ranked[0]] + InsertByScore(x, ranked[1..])
  }

  /** Inserting into a ranking keeps it ranked. */
  lemma {:induction false} InsertKeepsRanking(x: Summary, ranked: seq<Summary>)
    requires ScoreNonIncreasing(ranked)
    ensures ScoreNonIncreasing(InsertByScore(x, ranked))
  {
    if ranked != [] && x.score < ranked[0].score {
      var rest := InsertByScore(x, ranked[1..]);
      InsertKeepsRanking(x, ranked[1..]);
      var r := [ranked[0]] + rest;
      assert r == InsertByScore(x, ranked);
      forall i, j | 0 <= i < j < |r| ensures r[i].score >= r[j].score {
        if i == 0 {
          assert ranked[0].score >= rest[0].score;
          if j > 1 {
            assert rest[0].score >= rest[j - 1].score;
          }
        } else {
          assert r[i] == rest[i - 1] && r[j] == rest[j - 1];
        }
      }
    }
  }

  /** `sort_values("Score", ascending=False)`: the rows in non-increasing
      order of score, each exactly as often as in the input. Rows with
      equal scores may come in any order. */
  function RankByScore(out: seq<Summary>): (ranked: seq<Summary>)
    ensures ScoreNonIncreasing(ranked)
    ensures multiset(ranked) == multiset(out)
  {
    if out == [] then []
    else
      var init := out[..|out| - 1];
      assert out == init + [out[|out| - 1]];
      var ranked := RankByScore(init);
      InsertKeepsRanking(out[|out| - 1], ranked);
      InsertByScore(out[|out| - 1], ranked)
  }

  /** `step_aggregate` on the classified rows: the grouped table built
      column by column as the source does, and the ranking written to
      disk. */
  method StepAggregate(rows: seq<Record>) returns (out: seq<Summary>, ranking: seq<Summary>)
    ensures out == Aggregate(rows)
    ensures multiset(ranking) == multiset(out) && ScoreNonIncreasing(ranking)
  {
    var keys := GroupKeys(rows);
    GroupsAreInhabited(rows);
    var counts := Summaries(rows, keys);
    out := seq(|counts|, i requires 0 <= i < |counts| =>
                 Summary(counts[i].ministry, counts[i].total, counts[i].digital, counts[i].office, 0.0, 0.0, 0.0));
    out := seq(|out|, i requires 0 <= i < |out| && out[i].total > 0 =>
                 out[i].(digitalShare := out[i].digital as real / out[i].total as real));
    out := seq(|out|, i requires 0 <= i < |out| && out[i].total > 0 =>
                 out[i].(paperPenalty := out[i].office as real / out[i].total as real));
    out := seq(|out|, i requires 0 <= i < |out| =>
                 out[i].(score := out[i].digitalShare * 100.0 - out[i].paperPenalty * 20.0));
    ranking := RankByScore(out);
  }
}
