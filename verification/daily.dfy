/** The `/daily` report: the records of one day, grouped by
    `(category, other)` with the amounts summed per group, labelled, and
    totalled. */
module Daily {
  import opened Options
  import opened AmountText
  import opened Storage
  import Conversation

  /** The `GROUP BY category, other` key. Absent values form a group of
      their own, as SQL groups NULLs together. */
  datatype Key = Key(category: Option<string>, other: Option<string>)

  function KeyOf(r: Record): Key {
    Key(r.category, r.other)
  }

  /** `WHERE date(ts) = today`, keeping log order. */
  function OnDay(log: Log, today: int): (rs: Log)
    ensures forall r :: r in rs <==> r in log && r.day == today
    ensures |rs| <= |log|
  {
    if log == [] then []
    else
      var rest := OnDay(log[..|log| - 1], today);
      var r := log[|log| - 1];
      assert log == log[..|log| - 1] + [r];
      if r.day == today then rest + [r] else rest
  }

  /** The selection keeps each of today's records as many times as the log
      holds it, duplicates included, and no record of another day. */
  lemma {:induction false} OnDayCounts(log: Log, today: int)
    ensures forall x :: multiset(OnDay(log, today))[x] == (if x.day == today then multiset(log)[x] else 0)
    decreases |log|
  {
    if log != [] {
      var p := log[..|log| - 1];
      var r := log[|log| - 1];
      OnDayCounts(p, today);
      assert log == p + [r];
      assert multiset(log) == multiset(p) + multiset{r};
      if r.day == today {
        assert multiset(OnDay(p, today) + [r]) == multiset(OnDay(p, today)) + multiset{r};
      }
    }
  }

  /** The sum of today's amounts, read straight off the log: a reference for
      the grand total that does not go through the selection or the groups. */
  function DayTotal(log: Log, today: int): nat {
    if log == [] then 0
    else DayTotal(log[..|log| - 1], today) + (if log[|log| - 1].day == today then log[|log| - 1].amount else 0)
  }

  /** Selecting today's records keeps every one of today's amounts, duplicates
      included: their sum is the day's total. */
  lemma {:induction false} OnDayTotal(log: Log, today: int)
    ensures Total(OnDay(log, today)) == DayTotal(log, today)
    decreases |log|
  {
    if log != [] {
      var p := log[..|log| - 1];
      var r := log[|log| - 1];
      OnDayTotal(p, today);
      if r.day == today {
        var rs := OnDay(p, today) + [r];
        assert rs[..|rs| - 1] == OnDay(p, today);
      }
    }
  }

  /** Sum of all amounts. */
  function Total(rs: Log): nat {
    if rs == [] then 0 else Total(rs[..|rs| - 1]) + rs[|rs| - 1].amount
  }

  /** Sum of the amounts of the records in group `k`. */
  function KeyTotal(rs: Log, k: Key): nat {
    if rs == [] then 0
    else KeyTotal(rs[..|rs| - 1], k) + (if KeyOf(rs[|rs| - 1]) == k then rs[|rs| - 1].amount else 0)
  }

  predicate Distinct<T(==)>(s: seq<T>) {
    forall i, j :: 0 <= i < j < |s| ==> s[i] != s[j]
  }

  /** The groups present in `rs`, each once, in order of first appearance. */
  function Keys(rs: Log): (ks: seq<Key>)
    ensures Distinct(ks)
    ensures forall k :: k in ks <==> exists r :: r in rs && KeyOf(r) == k
    ensures |ks| <= |rs|
  {
    if rs == [] then []
    else
      var p := rs[..|rs| - 1];
      var ks := Keys(p);
      var k := KeyOf(rs[|rs| - 1]);
      assert rs == p + [rs[|rs| - 1]];
      if k in ks then ks else ks + [k]
  }

  /** One result row of the query: the group and `SUM(amount)`. */
  datatype Row = Row(category: Option<string>, other: Option<string>, total: nat)

  function RowKey(row: Row): Key {
    Key(row.category, row.other)
  }

  function RowsFor(ks: seq<Key>, rs: Log): (rows: seq<Row>)
    ensures |rows| == |ks|
    ensures forall j :: 0 <= j < |ks| ==> RowKey(rows[j]) == ks[j] && rows[j].total == KeyTotal(rs, ks[j])
  {
    if ks == [] then []
    else [Row(ks[0].category, ks[0].other, KeyTotal(rs, ks[0]))] + RowsFor(ks[1..], rs)
  }

  /** The rows `SELECT category, other, SUM(amount) ... GROUP BY category, other`
      returns for `today`. SQL leaves the row order open; this model lists
      groups in order of first insertion. */
  function GroupRows(log: Log, today: int): seq<Row> {
    var rs := OnDay(log, today);
    RowsFor(Keys(rs), rs)
  }

  function SumRows(rows: seq<Row>): nat {
    if rows == [] then 0 else rows[0].total + SumRows(rows[1..])
  }

  /** The report's name for a group: the subtype for "boshqalar", the category
      otherwise. */
  function Label(row: Row): Option<string> {
    if row.category == Some(Conversation.OtherCategory) then row.other else row.category
  }

  /** One line of the report. */
  datatype Line = Line(name: Option<string>, amount: nat)

  /** The reply of `daily`: either "no expenses today" or one line per group
      and the grand total. */
  datatype Report = NoExpenses | Summary(lines: seq<Line>, total: nat)

  /** The loop of `daily`: label each row and add its sum to the total. */
  method Summarize(rows: seq<Row>) returns (lines: seq<Line>, total: nat)
    ensures |lines| == |rows|
    ensures forall j :: 0 <= j < |rows| ==> lines[j] == Line(Label(rows[j]), rows[j].total)
    ensures total == SumRows(rows)
  {
    lines := [];
    total := 0;
    var i := 0;
    while i < |rows|
      invariant 0 <= i <= |rows|
      invariant |lines| == i
      invariant forall j :: 0 <= j < i ==> lines[j] == Line(Label(rows[j]), rows[j].total)
      invariant total + SumRows(rows[i..]) == SumRows(rows)
    {
      assert rows[i..] == [rows[i]] + rows[i + 1..];
      lines := lines + [Line(Label(rows[i]), rows[i].total)];
      total := total + rows[i].total;
      i := i + 1;
    }
  }

  /** One labelled line per row. */
  function Lines(rows: seq<Row>): seq<Line> {
    seq(|rows|, j requires 0 <= j < |rows| => Line(Label(rows[j]), rows[j].total))
  }

  /** `daily`: the report for `today` over the stored log. No row for today
      gives the "no expenses" reply; otherwise each line is one group with
      its exact sum, and the total is the sum of every amount stored today. */
  function DailyReport(log: Log, today: int): (report: Report)
    ensures report.NoExpenses? <==> forall i :: 0 <= i < |log| ==> log[i].day != today
    ensures report.Summary? ==>
      && report.total == Total(OnDay(log, today)) == DayTotal(log, today)
      && |report.lines| == |Keys(OnDay(log, today))|
      && forall j :: 0 <= j < |report.lines| ==>
           var k := Keys(OnDay(log, today))[j];
           && report.lines[j].amount == KeyTotal(OnDay(log, today), k)
           && report.lines[j].name == (if k.category == Some(Conversation.OtherCategory) then k.other else k.category)
  {
    var rs := OnDay(log, today);
    var rows := GroupRows(log, today);
    assert forall i :: 0 <= i < |log| && log[i].day == today ==> log[i] in rs && KeyOf(log[i]) in Keys(rs);
    if rows == [] then NoExpenses
    else
      assert Keys(rs)[0] in Keys(rs);
      GroupTotalIsTotal(rs);
      OnDayTotal(log, today);
      Summary(Lines(rows), SumRows(rows))
  }

  lemma {:induction false} SumRowsAppend(a: seq<Row>, b: seq<Row>)
    ensures SumRows(a + b) == SumRows(a) + SumRows(b)
    decreases |a|
  {
    if a != [] {
      assert (a + b)[0] == a[0] && (a + b)[1..] == a[1..] + b;
      SumRowsAppend(a[1..], b);
    } else {
      assert a + b == b;
    }
  }

  lemma {:induction false} RowsForAppend(ks: seq<Key>, k: Key, rs: Log)
    ensures RowsFor(ks + [k], rs) == RowsFor(ks, rs) + [Row(k.category, k.other, KeyTotal(rs, k))]
    decreases |ks|
  {
    if ks != [] {
      assert (ks + [k])[1..] == ks[1..] + [k];
      RowsForAppend(ks[1..], k, rs);
    }
  }

  /** Adding a record adds its amount to the sum over the groups `ks` exactly
      when its group is among them, and exactly once since they are distinct. */
  lemma {:induction false} SumRowsSnoc(ks: seq<Key>, rs: Log, r: Record)
    requires Distinct(ks)
    ensures SumRows(RowsFor(ks, rs + [r])) == SumRows(RowsFor(ks, rs)) + (if KeyOf(r) in ks then r.amount else 0)
    decreases |ks|
  {
    if ks != [] {
      assert (rs + [r])[..|rs + [r]| - 1] == rs;
      assert KeyOf(r) in ks[1..] ==> KeyOf(r) != ks[0];
      assert KeyOf(r) in ks <==> KeyOf(r) == ks[0] || KeyOf(r) in ks[1..];
      SumRowsSnoc(ks[1..], rs, r);
    }
  }

  /** A group with no record sums to zero. */
  lemma {:induction false} AbsentKeyTotal(rs: Log, k: Key)
    requires forall r :: r in rs ==> KeyOf(r) != k
    ensures KeyTotal(rs, k) == 0
    decreases |rs|
  {
    if rs != [] {
      AbsentKeyTotal(rs[..|rs| - 1], k);
    }
  }

  /** Sum preservation: the group sums add up to the total of all records. */
  lemma {:induction false} GroupTotalIsTotal(rs: Log)
    ensures SumRows(RowsFor(Keys(rs), rs)) == Total(rs)
    decreases |rs|
  {
    if rs != [] {
      var p := rs[..|rs| - 1];
      var r := rs[|rs| - 1];
      assert rs == p + [r];
      GroupTotalIsTotal(p);
      SumRowsSnoc(Keys(p), p, r);
      var k := KeyOf(r);
      if k !in Keys(p) {
        RowsForAppend(Keys(p), k, rs);
        SumRowsAppend(RowsFor(Keys(p), rs), [Row(k.category, k.other, KeyTotal(rs, k))]);
        AbsentKeyTotal(p, k);
        assert SumRows([Row(k.category, k.other, KeyTotal(rs, k))]) == KeyTotal(rs, k);
      }
    }
  }

  /** Records of other days do not contribute: inserting one leaves the
      grouped rows of `today` as they were. */
  lemma OtherDaysIgnored(log: Log, r: Record, today: int)
    requires r.day != today
    ensures GroupRows(log + [r], today) == GroupRows(log, today)
  {
    assert (log + [r])[..|log + [r]| - 1] == log;
  }

  /** Python's `str` of a nullable text column: `None` prints as "None". */
  function NameText(name: Option<string>): string {
    match name
    case None => "None"
    case Some(t) => t
  }

  function LineText(line: Line): string {
    NameText(line.name) + ": " + Show(line.amount) + "\n"
  }

  function LinesText(lines: seq<Line>): string {
    if lines == [] then "" else LineText(lines[0]) + LinesText(lines[1..])
  }

  const NoExpensesText: string := "Bugun harajat yo'q."
  const SummaryHeader: string := "Bugungi harajatlar:\n"
  const TotalPrefix: string := "\nUmumiy: "

  /** The message `daily` sends: the fixed "no expenses" text, or the header,
      one "name: sum" line per group, a blank line and the grand total. */
  function ReportText(report: Report): (text: string)
    ensures report.NoExpenses? ==> text == NoExpensesText
    ensures report.Summary? ==>
      && |text| >= |SummaryHeader| + |TotalPrefix + Show(report.total)|
      && text[..|SummaryHeader|] == SummaryHeader
      && text[|text| - |TotalPrefix + Show(report.total)|..] == TotalPrefix + Show(report.total)
  {
    match report
    case NoExpenses => NoExpensesText
    case Summary(lines, total) =>
      var text := SummaryHeader + LinesText(lines) + TotalPrefix + Show(total);
      assert text == SummaryHeader + (LinesText(lines) + TotalPrefix + Show(total));
      assert text == (SummaryHeader + LinesText(lines)) + (TotalPrefix + Show(total));
      text
  }

}
