/** js/app.js: the dashboard. Its statistics, the table filter, the row buttons, the
    CSV export and the new-ticket form are pure computations over the ticket list; the
    global `state` object is a class whose methods are the event handlers that change it. */
module ClientApp {
  import opened Common
  import opened Text
  import opened TicketStore
  import ClientData

  const TOTAL_CAPACITY := 100

  // ---------------------------------------------------------------------------
  // Array.prototype.filter and reduce
  // ---------------------------------------------------------------------------

  /** `r` is `s` with some elements left out, the rest kept in order. */
  predicate IsSubsequence<T(==)>(r: seq<T>, s: seq<T>)
    decreases |s|
  {
    r == [] || (s != [] && ((r[0] == s[0] && IsSubsequence(r[1..], s[1..])) || IsSubsequence(r, s[1..])))
  }

  /** Every value occurs in `r` as often as in `s` when it passes `p`, and not at all otherwise. */
  ghost predicate KeepsCountsOf<T(!new)>(r: seq<T>, s: seq<T>, p: T -> bool) {
    forall x :: multiset(r)[x] == if p(x) then multiset(s)[x] else 0
  }

  /** `s.filter(p)`: the elements satisfying `p`, all of them, in their order. */
  function Filter<T(==,!new)>(s: seq<T>, p: T -> bool): (r: seq<T>)
    ensures |r| <= |s|
    ensures forall x :: x in r ==> x in s && p(x)
    ensures forall x :: x in s && p(x) ==> x in r
    ensures IsSubsequence(r, s)
    decreases |s|
  {
    if s == [] then []
    else if p(s[0]) then
      var rest := Filter(s[1..], p);
      assert ([s[0]] + rest)[1..] == rest;
      [s[0]] + rest
    else Filter(s[1..], p)
  }

  /** The filter keeps every passing element as many times as it occurs: a repeated
      element is never collapsed. */
  lemma {:induction false} FilterKeepsCounts<T(!new)>(s: seq<T>, p: T -> bool)
    ensures KeepsCountsOf(Filter(s, p), s, p)
    decreases |s|
  {
    if s != [] {
      FilterKeepsCounts(s[1..], p);
      assert s == [s[0]] + s[1..];
      if p(s[0]) {
        assert Filter(s, p) == [s[0]] + Filter(s[1..], p);
      }
    }
  }

  /** A filter that rejects nothing returns the list itself. */
  lemma {:induction false} FilterKeepsAll<T(!new)>(s: seq<T>, p: T -> bool)
    requires forall i :: 0 <= i < |s| ==> p(s[i])
    ensures Filter(s, p) == s
    decreases |s|
  {
    if s != [] {
      FilterKeepsAll(s[1..], p);
      assert [s[0]] + s[1..] == s;
    }
  }

  /** A weaker test keeps at least as many elements. */
  lemma {:induction false} FilterMonotone<T(!new)>(s: seq<T>, p: T -> bool, q: T -> bool)
    requires forall i :: 0 <= i < |s| ==> p(s[i]) ==> q(s[i])
    ensures |Filter(s, p)| <= |Filter(s, q)|
    decreases |s|
  {
    if s != [] {
      FilterMonotone(s[1..], p, q);
    }
  }

  /** A test and its negation split the list between them. */
  lemma {:induction false} FilterComplement<T(!new)>(s: seq<T>, p: T -> bool, q: T -> bool)
    requires forall i :: 0 <= i < |s| ==> q(s[i]) == !p(s[i])
    ensures |Filter(s, p)| + |Filter(s, q)| == |s|
    decreases |s|
  {
    if s != [] {
      FilterComplement(s[1..], p, q);
    }
  }

  predicate IsSold(t: Ticket) { t.status != CANCELLED }

  predicate IsConfirmed(t: Ticket) { t.status == CONFIRMED }

  predicate IsPending(t: Ticket) { t.status == PENDING }

  predicate IsCancelled(t: Ticket) { t.status == CANCELLED }

  /** The sum of the prices of the tickets not cancelled. */
  function SoldPrices(ts: seq<Ticket>): int
    decreases |ts|
  {
    if ts == [] then 0 else (if IsSold(ts[0]) then ts[0].price else 0) + SoldPrices(ts[1..])
  }

  /** `ts.reduce((sum, t) => t.status !== 'cancelled' ? sum + t.price : sum, sum)`:
      a left fold from `sum`. */
  function ReduceRevenue(ts: seq<Ticket>, sum: int): int
    decreases |ts|
  {
    if ts == [] then sum else ReduceRevenue(ts[1..], if IsSold(ts[0]) then sum + ts[0].price else sum)
  }

  /** The fold adds up exactly the prices of the tickets not cancelled. */
  lemma {:induction false} ReduceRevenueIsSum(ts: seq<Ticket>, sum: int)
    ensures ReduceRevenue(ts, sum) == sum + SoldPrices(ts)
    decreases |ts|
  {
    if ts != [] {
      ReduceRevenueIsSum(ts[1..], if IsSold(ts[0]) then sum + ts[0].price else sum);
    }
  }

  lemma MulSucc(n: int, x: int)
    ensures (n + 1) * x == n * x + x
  {
  }

  /** When every sold ticket costs between `lo` and `hi`, so do the sold tickets on average. */
  lemma {:induction false} SoldPricesBounds(ts: seq<Ticket>, lo: int, hi: int)
    requires forall i :: 0 <= i < |ts| && IsSold(ts[i]) ==> lo <= ts[i].price <= hi
    ensures var n := |Filter(ts, IsSold)|; n * lo <= SoldPrices(ts) <= n * hi
    decreases |ts|
  {
    if ts != [] {
      SoldPricesBounds(ts[1..], lo, hi);
      var n := |Filter(ts[1..], IsSold)|;
      var rest := SoldPrices(ts[1..]);
      if IsSold(ts[0]) {
        assert |Filter(ts, IsSold)| == n + 1 && SoldPrices(ts) == ts[0].price + rest;
        MulSucc(n, lo);
        MulSucc(n, hi);
      } else {
        assert |Filter(ts, IsSold)| == n && SoldPrices(ts) == rest;
      }
    }
  }

  // ---------------------------------------------------------------------------
  // renderStats
  // ---------------------------------------------------------------------------

  /** `Math.round(a / b)` for a positive `b`: the integer nearest `a / b`, halves rounded up. */
  function RoundDiv(a: int, b: int): (r: int)
    requires b > 0
    ensures 2 * b * r <= 2 * a + b < 2 * b * r + 2 * b
  {
    var r := (2 * a + b) / (2 * b);
    assert 2 * a + b == r * (2 * b) + (2 * a + b) % (2 * b);
    r
  }

  lemma LessByFactor(k: int, x: int, y: int)
    requires k > 0 && k * x < k * y
    ensures x < y
  {
  }

  /** Rounding a quotient that lies between `lo` and `hi` stays between them. */
  lemma RoundDivBounds(a: int, b: int, lo: int, hi: int)
    requires b > 0 && b * lo <= a <= b * hi
    ensures lo <= RoundDiv(a, b) <= hi
  {
    var r := RoundDiv(a, b);
    assert 2 * b * lo < 2 * b * (r + 1);
    LessByFactor(2 * b, lo, r + 1);
    assert 2 * b * r < 2 * b * (hi + 1);
    LessByFactor(2 * b, r, hi + 1);
  }

  /** The figures the dashboard shows. */
  datatype Stats = Stats(
    total: int,
    available: int,
    sold: nat,
    capacityPercent: int,
    revenue: int,
    avgPrice: int,
    confirmed: nat,
    confirmedPercent: string)

  /** `renderStats()`: sold tickets are the ones not cancelled; available seats are the
      capacity less those; revenue adds up their prices; the average is the rounded
      quotient (0 with nothing sold); the confirmed share is a rounded percentage
      between 0 and 100 ('0%' with nothing sold). */
  function RenderStats(ts: seq<Ticket>): (s: Stats)
    ensures s.total == TOTAL_CAPACITY
    ensures s.sold == |Filter(ts, IsSold)| && s.available == TOTAL_CAPACITY - s.sold
    ensures s.sold + |Filter(ts, IsCancelled)| == |ts|
    ensures s.capacityPercent == s.sold
    ensures s.revenue == SoldPrices(ts)
    ensures s.confirmed == |Filter(ts, IsConfirmed)| && s.confirmed <= s.sold
    ensures s.sold == 0 ==> s.avgPrice == 0 && s.confirmedPercent == "0%"
    ensures s.sold > 0 ==> 2 * s.sold * s.avgPrice <= 2 * s.revenue + s.sold < 2 * s.sold * s.avgPrice + 2 * s.sold
    ensures s.sold > 0 ==> exists pct: nat {:trigger NatToString(pct)} ::
      && pct <= 100
      && 2 * s.sold * pct <= 200 * s.confirmed + s.sold < 2 * s.sold * pct + 2 * s.sold
      && s.confirmedPercent == NatToString(pct) + "%"
  {
    var sold := |Filter(ts, IsSold)|;
    var confirmed := |Filter(ts, IsConfirmed)|;
    FilterComplement(ts, IsSold, IsCancelled);
    FilterMonotone(ts, IsConfirmed, IsSold);
    var revenue := ReduceRevenue(ts, 0);
    ReduceRevenueIsSum(ts, 0);
    var avgPrice := if sold > 0 then RoundDiv(revenue, sold) else 0;
    var confirmedPercent :=
      if sold > 0 then
        RoundDivBounds(100 * confirmed, sold, 0, 100);
        var pct := RoundDiv(100 * confirmed, sold);
        NatToString(pct) + "%"
      else "0%";
    Stats(TOTAL_CAPACITY, TOTAL_CAPACITY - sold, sold, sold, revenue, avgPrice, confirmed, confirmedPercent)
  }

  /** When every sold ticket costs between `lo` and `hi`, so does the average price shown. */
  lemma AveragePriceBounds(ts: seq<Ticket>, lo: int, hi: int)
    requires forall i :: 0 <= i < |ts| && IsSold(ts[i]) ==> lo <= ts[i].price <= hi
    requires exists i :: 0 <= i < |ts| && IsSold(ts[i])
    ensures lo <= RenderStats(ts).avgPrice <= hi
  {
    var s := RenderStats(ts);
    var i :| 0 <= i < |ts| && IsSold(ts[i]);
    assert ts[i] in Filter(ts, IsSold);
    SoldPricesBounds(ts, lo, hi);
    RoundDivBounds(s.revenue, s.sold, lo, hi);
  }

  /** Tickets sold at the prices of the price table average between 120 and 250 GHS. */
  lemma TablePricesAverage(ts: seq<Ticket>)
    requires forall i :: 0 <= i < |ts| ==> ClientData.PriceOf(ts[i].ticketType) == Some(ts[i].price)
    requires exists i :: 0 <= i < |ts| && IsSold(ts[i])
    ensures 120 <= RenderStats(ts).avgPrice <= 250
  {
    AveragePriceBounds(ts, 120, 250);
  }

  // ---------------------------------------------------------------------------
  // filterTickets
  // ---------------------------------------------------------------------------

  const ALL := "all"

  /** `state.filters`: the search text (lower-cased as it is typed) and the two selects. */
  datatype Filters = Filters(search: string, status: string, ticketType: string)

  const DEFAULT_FILTERS := Filters("", ALL, ALL)

  /** The test `filterTickets` applies to one ticket. */
  predicate MatchesFilters(t: Ticket, f: Filters) {
    && (Contains(Lower(t.name), f.search) || (t.phone != "" && Contains(Lower(t.phone), f.search)))
    && (f.status == ALL || t.status == f.status)
    && (f.ticketType == ALL || t.ticketType == f.ticketType)
  }

  /** `filterTickets()`: the tickets, in list order, whose lower-cased name or phone
      contains the search text and that agree with each select not set to 'all'. */
  function FilterTickets(ts: seq<Ticket>, f: Filters): (r: seq<Ticket>)
    ensures IsSubsequence(r, ts)
    ensures forall t :: t in r ==>
      && (Contains(Lower(t.name), f.search) || (t.phone != "" && Contains(Lower(t.phone), f.search)))
      && (f.status != ALL ==> t.status == f.status)
      && (f.ticketType != ALL ==> t.ticketType == f.ticketType)
    ensures forall t :: t in ts && MatchesFilters(t, f) ==> t in r
    ensures KeepsCountsOf(r, ts, t => MatchesFilters(t, f))
  {
    FilterKeepsCounts(ts, t => MatchesFilters(t, f));
    Filter(ts, t => MatchesFilters(t, f))
  }

  lemma ContainsEmpty(s: string)
    ensures Contains(s, "")
  {
    assert StartsWith(s, "");
  }

  /** With the initial filters every ticket is shown. */
  lemma DefaultFiltersShowAll(ts: seq<Ticket>)
    ensures FilterTickets(ts, DEFAULT_FILTERS) == ts
  {
    forall i | 0 <= i < |ts|
      ensures MatchesFilters(ts[i], DEFAULT_FILTERS)
    {
      ContainsEmpty(Lower(ts[i].name));
    }
    FilterKeepsAll(ts, t => MatchesFilters(t, DEFAULT_FILTERS));
  }

  // ---------------------------------------------------------------------------
  // renderTable
  // ---------------------------------------------------------------------------

  datatype ActionButton = ConfirmButton(id: int) | QrButton(id: int) | DeleteButton(id: int)

  /** The action buttons of one row: QR code and delete for every ticket, with the
      confirm button in front of them for a pending one. */
  function RowActions(t: Ticket): (r: seq<ActionButton>)
    ensures |r| >= 2 && r[|r| - 2] == QrButton(t.id) && r[|r| - 1] == DeleteButton(t.id)
    ensures ConfirmButton(t.id) in r <==> t.status == PENDING
    ensures t.status == PENDING ==> r == [ConfirmButton(t.id)] + r[1..] && |r| == 3
    ensures t.status != PENDING ==> |r| == 2
    ensures forall b :: b in r ==> b.id == t.id
  {
    var buttons := [QrButton(t.id), DeleteButton(t.id)];
    if t.status == PENDING then [ConfirmButton(t.id)] + buttons else buttons
  }

  /** One table row: the phone cell shows '-' for a ticket without a phone. */
  datatype TableRow = TableRow(ticket: Ticket, phoneCell: string, actions: seq<ActionButton>)

  datatype TableView = NoResults | Rows(rows: seq<TableRow>)

  /** `renderTable()`: the "no results" notice when the filter leaves nothing, else one
      row per filtered ticket, in order. */
  function RenderTable(ts: seq<Ticket>, f: Filters): (v: TableView)
    ensures v.NoResults? <==> FilterTickets(ts, f) == []
    ensures v.Rows? ==> |v.rows| == |FilterTickets(ts, f)| && forall i :: 0 <= i < |v.rows| ==>
      && v.rows[i].ticket == FilterTickets(ts, f)[i]
      && v.rows[i].phoneCell == (if v.rows[i].ticket.phone == "" then "-" else v.rows[i].ticket.phone)
      && v.rows[i].actions == RowActions(v.rows[i].ticket)
  {
    var shown := FilterTickets(ts, f);
    if shown == [] then NoResults
    else Rows(seq(|shown|, i requires 0 <= i < |shown| =>
      TableRow(shown[i], if shown[i].phone == "" then "-" else shown[i].phone, RowActions(shown[i]))))
  }

  // ---------------------------------------------------------------------------
  // exportCSV
  // ---------------------------------------------------------------------------

  const CSV_HEADERS: seq<string> := ["ID", "Name", "Phone", "Type", "Price (GHS)", "Status", "Purchase Date"]

  /** The header line: the column names joined by commas. */
  function HeaderLine(): (line: string)
    ensures Split(line, ',') == CSV_HEADERS
    ensures NoNewline(line)
  {
    HeadersPlain();
    SplitJoin(CSV_HEADERS, ',');
    JoinAvoids(CSV_HEADERS, ",", '\n');
    Join(CSV_HEADERS, ",")
  }

  lemma HeadersPlain()
    ensures forall i :: 0 <= i < |CSV_HEADERS| ==> ',' !in CSV_HEADERS[i] && '\n' !in CSV_HEADERS[i]
  {
    assert ',' !in "ID" && '\n' !in "ID";
    assert ',' !in "Name" && '\n' !in "Name";
    assert ',' !in "Phone" && '\n' !in "Phone";
    assert ',' !in "Type" && '\n' !in "Type";
    assert ',' !in "Price (GHS)" && '\n' !in "Price (GHS)";
    assert ',' !in "Status" && '\n' !in "Status";
    assert ',' !in "Purchase Date" && '\n' !in "Purchase Date";
  }

  /** One ticket's line: id, quoted name, quoted phone ('N/A' without one), type, price,
      status, date. */
  function CsvRow(t: Ticket): string {
    Join(CsvCells(t), ",")
  }

  /** The cells of a ticket's line, in header order. */
  function CsvCells(t: Ticket): seq<string> {
    [IntToString(t.id), "\"" + t.name + "\"", "\"" + (if t.phone == "" then "N/A" else t.phone) + "\"",
          t.ticketType, IntToString(t.price), t.status, t.date]
  }

  /** A ticket's line reads back as one cell under each of the seven headers, holding that
      field, provided no text field of the ticket holds a comma. */
  lemma CsvRowCells(t: Ticket)
    requires ',' !in t.name && ',' !in t.phone && ',' !in t.ticketType && ',' !in t.status && ',' !in t.date
    ensures var cells := Split(CsvRow(t), ',');
      && |cells| == |CSV_HEADERS|
      && cells[0] == IntToString(t.id)
      && cells[1] == "\"" + t.name + "\""
      && cells[2] == "\"" + (if t.phone == "" then "N/A" else t.phone) + "\""
      && cells[3] == t.ticketType
      && cells[4] == IntToString(t.price)
      && cells[5] == t.status
      && cells[6] == t.date
  {
    var cells := CsvCells(t);
    assert ',' !in IntToString(t.id) && ',' !in IntToString(t.price);
    assert ',' !in cells[1] && ',' !in cells[2];
    assert forall k :: 0 <= k < |cells| ==> ',' !in cells[k];
    SplitJoin(cells, ',');
  }

  const STATISTICS_TITLE: seq<string> := ["", "", "", "STATISTICS", "", "", "", ""]

  /** The figures of the statistics block: the ticket count, the count of each status
      and the revenue, added up as the dashboard adds it. */
  function CountLines(ts: seq<Ticket>): (lines: seq<string>)
    ensures |lines| == 5
    ensures lines[4] == "Total Revenue," + IntToString(SoldPrices(ts)) + " GHS"
  {
    ReduceRevenueIsSum(ts, 0);
    ["Total Tickets," + IntToString(|ts|),
     "Confirmed," + IntToString(|Filter(ts, IsConfirmed)|),
     "Pending," + IntToString(|Filter(ts, IsPending)|),
     "Cancelled," + IntToString(|Filter(ts, IsCancelled)|),
     "Total Revenue," + IntToString(ReduceRevenue(ts, 0)) + " GHS"]
  }

  /** The statistics block after the ticket lines: a title among empty lines, then the figures. */
  function StatisticsLines(ts: seq<Ticket>): (lines: seq<string>)
    ensures |lines| == 13
    ensures lines[..8] == STATISTICS_TITLE && lines[8..] == CountLines(ts)
  {
    var lines := STATISTICS_TITLE + CountLines(ts);
    assert lines[..8] == STATISTICS_TITLE && lines[8..] == CountLines(ts);
    lines
  }

  /** The export's figures are the dashboard's: its confirmed count, its sold tickets
      (the rest being the cancelled ones) and its revenue. */
  lemma StatisticsMatchDashboard(ts: seq<Ticket>)
    ensures var lines := CountLines(ts);
            var stats := RenderStats(ts);
            && lines[0] == "Total Tickets," + IntToString(|ts|)
            && lines[1] == "Confirmed," + IntToString(stats.confirmed)
            && lines[3] == "Cancelled," + IntToString(|ts| - stats.sold)
            && lines[4] == "Total Revenue," + IntToString(stats.revenue) + " GHS"
  {
  }

  /** One line per ticket, in list order. */
  function CsvRows(ts: seq<Ticket>): (rows: seq<string>)
    ensures |rows| == |ts| && forall i :: 0 <= i < |ts| ==> rows[i] == CsvRow(ts[i])
  {
    seq(|ts|, i requires 0 <= i < |ts| => CsvRow(ts[i]))
  }

  /** The lines of the export: the header, one line per ticket in list order, then the
      statistics. */
  function CsvLines(ts: seq<Ticket>): (lines: seq<string>)
    ensures |lines| == |ts| + 14
    ensures lines[0] == HeaderLine()
    ensures forall i :: 0 <= i < |ts| ==> lines[i + 1] == CsvRow(ts[i])
    ensures lines[|ts| + 1..] == StatisticsLines(ts)
  {
    var header := [HeaderLine()];
    var rows := CsvRows(ts);
    var stats := StatisticsLines(ts);
    var lines := header + rows + stats;
    assert forall i :: 0 <= i < |ts| ==> lines[i + 1] == rows[i];
    assert lines[|ts| + 1..] == stats;
    lines
  }

  /** The file body: the lines joined by newlines. */
  function CsvContent(ts: seq<Ticket>): string {
    Join(CsvLines(ts), "\n")
  }

  predicate NoNewline(s: string) { '\n' !in s }

  /** The rendering of an integer is one line. */
  lemma IntToStringOneLine(i: int)
    ensures NoNewline(IntToString(i))
  {
    var s := IntToString(i);
    if i < 0 {
      assert s == "-" + NatToString(-i);
      assert forall k :: 1 <= k < |s| ==> IsDigit(s[k]);
    }
  }

  /** Each ticket is one line of the export when none of its text fields holds a newline. */
  lemma CsvRowOneLine(t: Ticket)
    requires NoNewline(t.name) && NoNewline(t.phone) && NoNewline(t.ticketType)
    requires NoNewline(t.status) && NoNewline(t.date)
    ensures NoNewline(CsvRow(t))
  {
    IntToStringOneLine(t.id);
    IntToStringOneLine(t.price);
    var parts := CsvCells(t);
    assert forall k :: 0 <= k < |parts| ==> NoNewline(parts[k]);
    JoinAvoids(parts, ",", '\n');
  }

  lemma LabelledOneLine(caption: string, n: int)
    requires NoNewline(caption)
    ensures NoNewline(caption + IntToString(n))
  {
    IntToStringOneLine(n);
  }

  predicate EachOneLine(lines: seq<string>) {
    forall k :: 0 <= k < |lines| ==> NoNewline(lines[k])
  }

  lemma EachOneLineConcat(a: seq<string>, b: seq<string>)
    requires EachOneLine(a) && EachOneLine(b)
    ensures EachOneLine(a + b)
  {
    assert forall k :: |a| <= k < |a + b| ==> (a + b)[k] == b[k - |a|];
  }

  lemma CountsOneLine(ts: seq<Ticket>)
    ensures EachOneLine(CountLines(ts))
  {
    LabelledOneLine("Total Tickets,", |ts|);
    LabelledOneLine("Confirmed,", |Filter(ts, IsConfirmed)|);
    LabelledOneLine("Pending,", |Filter(ts, IsPending)|);
    LabelledOneLine("Cancelled,", |Filter(ts, IsCancelled)|);
    LabelledOneLine("Total Revenue,", ReduceRevenue(ts, 0));
  }

  lemma TitleOneLine()
    ensures EachOneLine(STATISTICS_TITLE)
  {
    assert forall k :: 0 <= k < 8 && k != 3 ==> STATISTICS_TITLE[k] == "";
  }

  lemma StatisticsOneLine(ts: seq<Ticket>)
    ensures EachOneLine(StatisticsLines(ts))
  {
    TitleOneLine();
    CountsOneLine(ts);
    EachOneLineConcat(STATISTICS_TITLE, CountLines(ts));
    assert StatisticsLines(ts) == STATISTICS_TITLE + CountLines(ts);
  }

  /** Reading the export back line by line gives the header, the ticket lines and the
      statistics, provided no text field of a ticket holds a newline. */
  lemma CsvContentLines(ts: seq<Ticket>)
    requires forall i :: 0 <= i < |ts| ==>
      NoNewline(ts[i].name) && NoNewline(ts[i].phone) && NoNewline(ts[i].ticketType)
      && NoNewline(ts[i].status) && NoNewline(ts[i].date)
    ensures Split(CsvContent(ts), '\n') == CsvLines(ts)
  {
    var rows := CsvRows(ts);
    forall k | 0 <= k < |rows|
      ensures NoNewline(rows[k])
    {
      CsvRowOneLine(ts[k]);
    }
    StatisticsOneLine(ts);
    EachOneLineConcat([HeaderLine()], rows);
    EachOneLineConcat([HeaderLine()] + rows, StatisticsLines(ts));
    assert CsvLines(ts) == [HeaderLine()] + rows + StatisticsLines(ts);
    SplitJoin(CsvLines(ts), '\n');
  }

  // ---------------------------------------------------------------------------
  // addTicket's form data
  // ---------------------------------------------------------------------------

  const GHANA_PREFIX := "+233 "

  /** The body `addTicket` posts: `price` is missing for a type outside the price table. */
  datatype TicketForm = TicketForm(name: string, phone: string, ticketType: string, status: string, price: Option<int>)

  /** The form data built from the inputs: the phone input trimmed and put after the
      country code, the price looked up from the type. */
  function NewTicketForm(nameInput: string, phoneInput: string, typeInput: string, statusInput: string): (f: TicketForm)
    ensures f.name == nameInput && f.ticketType == typeInput && f.status == statusInput
    ensures StartsWith(f.phone, GHANA_PREFIX)
    ensures var rest := f.phone[|GHANA_PREFIX|..];
      && |rest| <= |phoneInput|
      && (rest != [] ==> !IsTrimmable(rest[0]) && !IsTrimmable(rest[|rest| - 1]))
      && rest == Trim(phoneInput)
    ensures f.price == ClientData.PriceOf(typeInput)
    ensures f.price.Some? ==> 120 <= f.price.value <= 250
  {
    TicketForm(nameInput, GHANA_PREFIX + Trim(phoneInput), typeInput, statusInput, ClientData.PriceOf(typeInput))
  }

  /** The phone the form sends does not depend on white space around the input. */
  lemma FormPhoneIgnoresPadding(nameInput: string, phoneInput: string, typeInput: string, statusInput: string)
    ensures NewTicketForm(nameInput, Trim(phoneInput), typeInput, statusInput).phone
         == NewTicketForm(nameInput, phoneInput, typeInput, statusInput).phone
  {
    TrimIdempotent(phoneInput);
  }

  // ---------------------------------------------------------------------------
  // The global `state` and the handlers that change it
  // ---------------------------------------------------------------------------

  class AppState {
    var tickets: seq<Ticket>
    var filters: Filters
    /** The `data-id` of the ticket awaiting delete confirmation, or null. */
    var ticketToDelete: Option<string>
    var deleteModalOpen: bool

    constructor ()
      ensures tickets == [] && filters == DEFAULT_FILTERS && ticketToDelete == None && !deleteModalOpen
    {
      tickets := [];
      filters := DEFAULT_FILTERS;
      ticketToDelete := None;
      deleteModalOpen := false;
    }

    /** The search box's input listener: the text is lower-cased as it is stored. */
    method OnSearchInput(value: string)
      modifies this`filters
      ensures filters == old(filters).(search := Lower(value))
    {
      filters := filters.(search := Lower(value));
    }

    method OnStatusChange(value: string)
      modifies this`filters
      ensures filters == old(filters).(status := value)
    {
      filters := filters.(status := value);
    }

    method OnTypeChange(value: string)
      modifies this`filters
      ensures filters == old(filters).(ticketType := value)
    {
      filters := filters.(ticketType := value);
    }

    /** `promptDelete(id)`: remember the ticket and open the confirmation. */
    method PromptDelete(id: string)
      modifies this`ticketToDelete, this`deleteModalOpen
      ensures ticketToDelete == Some(id) && deleteModalOpen
    {
      ticketToDelete := Some(id);
      deleteModalOpen := true;
    }

    /** `closeDeleteModal()`: hide the confirmation and forget the ticket. */
    method CloseDeleteModal()
      modifies this`ticketToDelete, this`deleteModalOpen
      ensures ticketToDelete == None && !deleteModalOpen
    {
      deleteModalOpen := false;
      ticketToDelete := None;
    }

    /** `confirmDelete()`: nothing happens unless a ticket is remembered; otherwise the
        list becomes what `deleteTicket` resolved to, `fetched`, and the modal closes. */
    method ConfirmDelete(fetched: seq<Ticket>)
      modifies this`tickets, this`ticketToDelete, this`deleteModalOpen
      ensures !ClientData.Truthy(old(ticketToDelete)) ==> unchanged(this)
      ensures ClientData.Truthy(old(ticketToDelete)) ==>
        tickets == fetched && ticketToDelete == None && !deleteModalOpen
    {
      if ClientData.Truthy(ticketToDelete) {
        tickets := fetched;
        CloseDeleteModal();
      }
    }

    /** `confirmTicket(id)`: the list becomes what `confirmTicket` resolved to. */
    method ConfirmTicket(fetched: seq<Ticket>)
      modifies this`tickets
      ensures tickets == fetched
    {
      tickets := fetched;
    }

    /** `addTicket(e)`: when the server returned the new ticket it is put first, and then
        the whole list is replaced by a fresh `getTickets()`, `refetched`; when it
        returned nothing the list stays as it was. */
    method AddTicket(created: Option<Ticket>, refetched: seq<Ticket>)
      modifies this`tickets
      ensures created.None? ==> tickets == old(tickets)
      ensures created.Some? ==> tickets == refetched
    {
      if created.Some? {
        tickets := [created.value] + tickets;
        tickets := refetched;
      }
    }
  }
}
