/**
 * The command handlers: the login fallback, the /get (and /today) report
 * builder, and the argument checks of /record, /set_noon and /set_lang. A
 * handler takes the chat context as plain inputs (sender, arguments, the
 * clock reading `now`) and returns the text it sends. Library formatting of
 * dates ("02-01 15:04") and uuids is a function parameter.
 */
module Bot {
  import opened Wrappers
  import opened Models
  import opened Strings
  import opened Decimal
  import Database
  import Relational

  const NAME_WIDTH: nat := 15
  const NANOS_PER_HOUR: int := 3_600_000_000_000
  const NANOS_PER_DAY: int := 24 * NANOS_PER_HOUR

  const INVALID_DAYS := "Please provide a valid number of days (positive integer)"
  const FETCH_ERROR := "❌ Error fetching records: "
  const TABLE_HEAD := "date & time │      name       │ kcal\n"
  const TABLE_RULE := "────────────┼─────────────────┼─────\n"
  const RECORD_USAGE := "Usage: /record <name> <ccal> [proteins] [fats] [carbs]\nExample: /record \"Chicken Breast\" 165 31 3 0"
  const CCAL_ERROR := "Calories must be a positive number"
  const PROTEINS_ERROR := "Proteins must be a non-negative number"
  const FATS_ERROR := "Fats must be a non-negative number"
  const CARBS_ERROR := "Carbs must be a non-negative number"
  const NOON_USAGE := "Usage: /set_noon <HH:MM>\nExample: /set_noon 03:00"
  const NOON_INVALID := "Invalid time format. Use HH:MM (e.g., 03:00)"
  const LANG_USAGE := "Usage: /set_lang <lang>\nExample: /set_lang ru\nSupported: ru, en"
  const LANG_UNSUPPORTED := "Unsupported language. Available: ru, en"

  // ---- identity ----

  /** The login: the sender's handle, or "user_" and the decimal id when there is none. */
  function Login(s: Sender): (login: string)
    ensures login != ""
    ensures s.username != "" ==> login == s.username
    ensures s.username == "" ==> HasPrefix(login, "user_") && login == "user_" + IntToString(s.id)
  {
    if s.username == "" then "user_" + IntToString(s.id) else s.username
  }

  /**
   * A fallback login is "user_" followed by the canonical decimal text of the
   * id (no plus sign, a minus sign only for a negative id, no leading zero),
   * and that text gives the id back.
   */
  lemma FallbackLoginHoldsId(s: Sender)
    requires s.username == "" && InInt64(s.id)
    ensures |Login(s)| > 5 && Login(s)[..5] == "user_"
    ensures var digits := Login(s)[5..];
      && IsDecimalText(digits) && TextValue(digits) == s.id
      && digits[0] != '+' && (digits[0] == '-' <==> s.id < 0)
      && (|Unsigned(digits)| > 1 ==> Unsigned(digits)[0] != '0')
    ensures ParseInt(Login(s)[5..]) == Some(s.id)
  {
    assert Login(s)[5..] == IntToString(s.id);
    IntToStringCanonical(s.id);
    ParseIntRoundTrip(s.id);
  }

  // ---- /get ----

  /** The day count: 1 without an argument, else a positive int64 written in decimal. */
  function ParseDays(args: seq<string>): (days: Option<int>)
    ensures days.Some? ==> 1 <= days.value <= MAX_INT64
    ensures |args| == 0 ==> days == Some(1)
    ensures |args| > 0 ==> (days.Some? <==> ParseInt(args[0]).Some? && ParseInt(args[0]).value > 0)
    ensures |args| > 0 && days.Some? ==> days == ParseInt(args[0])
  {
    if |args| == 0 then Some(1)
    else
      match ParseInt(args[0])
      case Some(n) => if n <= 0 then None else Some(n)
      case None => None
  }

  /** Every positive int64 is accepted as the day count, whatever follows it. */
  lemma ParseDaysAccepts(n: int, rest: seq<string>)
    requires 1 <= n <= MAX_INT64
    ensures ParseDays([IntToString(n)] + rest) == Some(n)
  {
    ParseIntRoundTrip(n);
  }

  /** Zero and negative day counts are refused. */
  lemma ParseDaysRejectsNonPositive(n: int, rest: seq<string>)
    requires MIN_INT64 <= n <= 0
    ensures ParseDays([IntToString(n)] + rest) == None
  {
    ParseIntRoundTrip(n);
  }

  /** Text that is not a decimal integer is refused as the day count. */
  lemma ParseDaysRejectsMalformed(arg: string, rest: seq<string>)
    requires !IsDecimalText(arg)
    ensures ParseDays([arg] + rest) == None
  {
    ParseIntMeaning(arg);
  }

  /** A day count beyond int64 is refused. */
  lemma ParseDaysRejectsTooLarge(n: nat, rest: seq<string>)
    requires n > MAX_INT64
    ensures ParseDays([NatToString(n)] + rest) == None
  {
    ParseIntRejectsTooLarge(n);
  }

  /** The source's `endTime.Add(-time.Duration(days) * 24 * time.Hour)`, in int64 nanoseconds. */
  function WindowStartAsWritten(now: Time, days: int): (start: Time)
    ensures InInt64(start - now)
  {
    now + Wrap64(Wrap64(Wrap64(-days) * 24) * NANOS_PER_HOUR)
  }

  /** The start of the window: `days` whole days before now. */
  function WindowStart(now: Time, days: int): (start: Time)
    requires days >= 1
    ensures start <= now - NANOS_PER_DAY
    ensures now - start == days * NANOS_PER_DAY
  {
    now - days * NANOS_PER_DAY
  }

  /** Up to 106751 days the source's duration does not overflow and it agrees with WindowStart. */
  lemma WindowStartAgrees(now: Time, days: int)
    requires 1 <= days <= 106751
    ensures WindowStartAsWritten(now, days) == WindowStart(now, days)
  {
    assert InInt64(-days) && InInt64(-days * 24);
    assert -days * 24 * NANOS_PER_HOUR == -days * NANOS_PER_DAY;
    assert InInt64(-days * NANOS_PER_DAY);
  }

  /** From 106752 days on the duration wraps: for 106752 the window starts ~292 years after now. */
  lemma WindowStartWrapsAt106752(now: Time)
    ensures WindowStartAsWritten(now, 106752) == now + 9223371273709551616
    ensures WindowStartAsWritten(now, 106752) > now
  {
    assert Wrap64(-106752) == -106752;
    assert Wrap64(-106752 * 24) == -2562048;
    assert Wrap64(-2562048 * NANOS_PER_HOUR) == 9223371273709551616;
  }

  /** A window whose start lies after its end holds no record: the source's /get 106752 finds nothing. */
  lemma WrappedWindowIsEmpty(store: Database.Store, login: string, now: Time)
    ensures store.RecordsInRange(login, WindowStartAsWritten(now, 106752), now) == []
  {
    WindowStartWrapsAt106752(now);
    var rs := store.RecordsInRange(login, WindowStartAsWritten(now, 106752), now);
    assert forall x :: multiset(rs)[x] == 0;
    assert multiset(rs) == multiset{};
    assert |rs| == |multiset(rs)|;
  }

  /** "No records found for the last N days". */
  function NoRecordsText(days: int): string
  {
    "No records found for the last " + IntToString(days) + " days"
  }

  /** One line of the report: the time, the centred name and the energy. */
  datatype ReportRow = ReportRow(createdAt: Time, name: string, kcal: int)

  /** The name cut to its first 15 bytes. */
  function Truncated(name: string): (r: string)
    ensures |r| == if |name| > NAME_WIDTH then NAME_WIDTH else |name|
    ensures r == name[..|r|]
  {
    if |name| > NAME_WIDTH then name[..NAME_WIDTH] else name
  }

  /** The name column: exactly 15 wide. */
  function CenteredName(name: string): (r: string)
    ensures |r| == NAME_WIDTH
  {
    var n := Truncated(name);
    var left := (NAME_WIDTH - |n|) / 2;
    Spaces(left) + n + Spaces(NAME_WIDTH - |n| - left)
  }

  /**
   * The (truncated) name sits in the middle of the column: (15 - len) / 2
   * blanks before it, the rest (as many or one more) after it.
   */
  lemma CenteredNameLayout(name: string)
    ensures var r := CenteredName(name); var n := Truncated(name); var left := (NAME_WIDTH - |n|) / 2;
      && r[left..left + |n|] == n
      && (forall i :: 0 <= i < left ==> r[i] == ' ')
      && (forall i :: left + |n| <= i < NAME_WIDTH ==> r[i] == ' ')
      && left <= NAME_WIDTH - |n| - left <= left + 1
  {
  }

  /** The row of a record and its product: its time, the centred name, `ccal * amount`. */
  function RowOf(r: Record, p: ProductDetails): ReportRow
  {
    ReportRow(r.createdAt, CenteredName(p.name), p.ccal * r.amount)
  }

  /** The row a record gives, or none when its product cannot be looked up. */
  function RowFor(r: Record, products: seq<ProductDetails>): (rows: seq<ReportRow>)
    ensures |rows| <= 1
    ensures forall k :: 0 <= k < |rows| ==> rows[k].createdAt == r.createdAt
  {
    match Database.FindProduct(products, r.productUuid)
    case Success(p) => [RowOf(r, p)]
    case Failure(_) => []
  }

  /** The rows for newest-first records: the list walked from its end, unresolved records skipped. */
  function Rows(records: seq<Record>, products: seq<ProductDetails>): seq<ReportRow>
  {
    if records == [] then [] else Rows(records[1..], products) + RowFor(records[0], products)
  }

  function TotalKcal(rows: seq<ReportRow>): int
  {
    if rows == [] then 0 else TotalKcal(rows[..|rows| - 1]) + rows[|rows| - 1].kcal
  }

  /** Reference sum: energy times amount over the records whose product exists. */
  function Energy(records: seq<Record>, products: seq<ProductDetails>): int
  {
    if records == [] then 0
    else
      (match Database.FindProduct(products, records[0].productUuid)
       case Success(p) => p.ccal * records[0].amount
       case Failure(_) => 0) + Energy(records[1..], products)
  }

  lemma {:induction false} TotalKcalAppend(a: seq<ReportRow>, b: seq<ReportRow>)
    ensures TotalKcal(a + b) == TotalKcal(a) + TotalKcal(b)
  {
    if b != [] {
      assert (a + b)[..|a + b| - 1] == a + b[..|b| - 1];
      TotalKcalAppend(a, b[..|b| - 1]);
    } else {
      assert a + b == a;
    }
  }

  /** The report's total is the energy of every record whose product exists; the rest add nothing. */
  lemma {:induction false} TotalIsEnergy(records: seq<Record>, products: seq<ProductDetails>)
    ensures TotalKcal(Rows(records, products)) == Energy(records, products)
  {
    if records != [] {
      TotalIsEnergy(records[1..], products);
      TotalKcalAppend(Rows(records[1..], products), RowFor(records[0], products));
    }
  }

  /** Every row stems from one of the records; its time is bounded by theirs. */
  lemma {:induction false} RowsTimesBounded(records: seq<Record>, products: seq<ProductDetails>, t: Time)
    requires forall i :: 0 <= i < |records| ==> records[i].createdAt <= t
    ensures forall i :: 0 <= i < |Rows(records, products)| ==> Rows(records, products)[i].createdAt <= t
  {
    if records != [] {
      RowsTimesBounded(records[1..], products, t);
    }
  }

  predicate OldestFirst(rows: seq<ReportRow>)
  {
    forall i, j :: 0 <= i < j < |rows| ==> rows[i].createdAt <= rows[j].createdAt
  }

  /** Newest-first records give oldest-first rows. */
  lemma {:induction false} RowsOldestFirst(records: seq<Record>, products: seq<ProductDetails>)
    requires forall i, j :: 0 <= i < j < |records| ==> records[i].createdAt >= records[j].createdAt
    ensures OldestFirst(Rows(records, products))
  {
    if records != [] {
      var rest := records[1..];
      RowsOldestFirst(rest, products);
      assert forall i :: 0 <= i < |rest| ==> rest[i].createdAt <= records[0].createdAt by {
        forall i | 0 <= i < |rest| ensures rest[i].createdAt <= records[0].createdAt {
          assert rest[i] == records[i + 1];
        }
      }
      RowsTimesBounded(rest, products, records[0].createdAt);
      var head := Rows(rest, products);
      var rows := Rows(records, products);
      assert rows == head + RowFor(records[0], products);
      forall i, j | 0 <= i < j < |rows| ensures rows[i].createdAt <= rows[j].createdAt {
        assert rows[i] == head[i];
        assert head[i].createdAt <= records[0].createdAt;
        if j >= |head| {
          assert rows[j] == RowFor(records[0], products)[j - |head|];
          assert rows[j].createdAt == records[0].createdAt;
        } else {
          assert rows[j] == head[j];
          assert head[i].createdAt <= head[j].createdAt;
        }
      }
    }
  }

  /** Every record's product exists. */
  predicate AllResolved(records: seq<Record>, products: seq<ProductDetails>)
  {
    records == [] ||
    (Database.FindProduct(products, records[0].productUuid).Success? && AllResolved(records[1..], products))
  }

  /** AllResolved says that every record's product exists. */
  lemma {:induction false} AllResolvedMeans(records: seq<Record>, products: seq<ProductDetails>)
    ensures AllResolved(records, products) <==>
      forall i :: 0 <= i < |records| ==> Database.FindProduct(products, records[i].productUuid).Success?
  {
    if records != [] {
      AllResolvedMeans(records[1..], products);
      assert forall i :: 1 <= i < |records| ==> records[i] == records[1..][i - 1];
    }
  }

  /** Counted from the end, the tail's element k is the whole sequence's element k. */
  lemma TailFromEnd<T>(s: seq<T>, k: nat)
    requires k + 1 < |s|
    ensures s[1..][|s[1..]| - 1 - k] == s[|s| - 1 - k]
  {
  }

  /** One step of the reverse walk over resolved records: the first record's row comes last. */
  lemma RowsResolvedStep(records: seq<Record>, products: seq<ProductDetails>)
    requires records != [] && AllResolved(records, products)
    ensures AllResolved(records[1..], products)
    ensures Rows(records, products)
      == Rows(records[1..], products) + [RowOf(records[0], Database.FindProduct(products, records[0].productUuid).value)]
  {
  }

  /** The records whose product the uuid lookup finds. */
  function HasProduct(products: seq<ProductDetails>): Record -> bool
  {
    (r: Record) => Database.FindProduct(products, r.productUuid).Success?
  }

  /**
   * There is one row for each record whose product exists and none for the
   * others, so never more rows than records.
   */
  lemma {:induction false} RowsAtMostRecords(records: seq<Record>, products: seq<ProductDetails>)
    ensures |Rows(records, products)| == |Relational.Where(records, HasProduct(products))|
    ensures |Rows(records, products)| <= |records|
  {
    if records != [] {
      RowsAtMostRecords(records[1..], products);
      assert |RowFor(records[0], products)| == if HasProduct(products)(records[0]) then 1 else 0;
    }
  }

  lemma {:induction false} RowsResolvedLength(records: seq<Record>, products: seq<ProductDetails>)
    requires AllResolved(records, products)
    ensures |Rows(records, products)| == |records|
  {
    if records != [] {
      RowsResolvedStep(records, products);
      RowsResolvedLength(records[1..], products);
    }
  }

  /**
   * Row k of the rows is the record k places from the end, with its product's
   * kcal, and there is one row per record.
   */
  ghost predicate RowFromEnd(records: seq<Record>, products: seq<ProductDetails>, k: nat)
  {
    && k < |records|
    && |Rows(records, products)| == |records|
    && Database.FindProduct(products, records[|records| - 1 - k].productUuid).Success?
    && Rows(records, products)[k]
       == RowOf(records[|records| - 1 - k], Database.FindProduct(products, records[|records| - 1 - k].productUuid).value)
  }

  /** Before the last row, a row of resolved records is the same row of all but the first record. */
  lemma RowFromEndTail(records: seq<Record>, products: seq<ProductDetails>, k: nat)
    requires AllResolved(records, products)
    requires k + 1 < |records|
    requires RowFromEnd(records[1..], products, k)
    ensures RowFromEnd(records, products, k)
  {
    RowsResolvedStep(records, products);
    TailFromEnd(records, k);
  }

  /** The last row of resolved records is the first record's. */
  lemma RowFromEndLast(records: seq<Record>, products: seq<ProductDetails>)
    requires records != [] && AllResolved(records, products)
    ensures RowFromEnd(records, products, |records| - 1)
  {
    RowsResolvedStep(records, products);
    RowsResolvedLength(records[1..], products);
  }

  /** When every product exists, row k is the record k places from the end, with kcal = ccal * amount. */
  lemma {:induction false} RowsReverse(records: seq<Record>, products: seq<ProductDetails>, k: nat)
    requires AllResolved(records, products)
    requires k < |records|
    ensures RowFromEnd(records, products, k)
  {
    if k + 1 < |records| {
      RowsResolvedStep(records, products);
      RowsReverse(records[1..], products, k);
      RowFromEndTail(records, products, k);
    } else {
      RowFromEndLast(records, products);
    }
  }

  /** A record whose lookup failed adds no row to the walk. */
  lemma SkipStep(records: seq<Record>, i: nat, products: seq<ProductDetails>, online: bool,
                 lookup: Result<ProductDetails, Database.DbError>)
    requires i < |records| && lookup.Failure?
    requires lookup == if online then Database.FindProduct(products, records[i].productUuid) else Failure(Database.ConnectionFailed)
    ensures online ==> Rows(records[i..], products) == Rows(records[i + 1..], products)
  {
    assert records[i..][1..] == records[i + 1..];
    if online {
      assert RowFor(records[i], products) == [];
      assert Rows(records[i + 1..], products) + [] == Rows(records[i + 1..], products);
    }
  }

  /** A record whose lookup succeeded adds its row at the end of the walk. */
  lemma KeepStep(records: seq<Record>, i: nat, products: seq<ProductDetails>, online: bool,
                 lookup: Result<ProductDetails, Database.DbError>)
    requires i < |records| && lookup.Success?
    requires lookup == if online then Database.FindProduct(products, records[i].productUuid) else Failure(Database.ConnectionFailed)
    ensures online
    ensures Rows(records[i..], products) == Rows(records[i + 1..], products) + [RowOf(records[i], lookup.value)]
  {
    assert records[i..][1..] == records[i + 1..];
    assert RowFor(records[i], products) == [RowOf(records[i], lookup.value)];
  }

  /** Writing one more line to the builder. */
  lemma AppendLine(head: string, rows: seq<ReportRow>, row: ReportRow, formatTime: Time -> string)
    ensures head + Lines(rows, formatTime) + Line(row, formatTime) == head + Lines(rows + [row], formatTime)
  {
    LinesSnoc(rows, row, formatTime);
    var lines, line := Lines(rows, formatTime), Line(row, formatTime);
    assert head + (lines + line) == head + lines + line;
  }

  lemma TotalKcalSnoc(rows: seq<ReportRow>, row: ReportRow)
    ensures TotalKcal(rows + [row]) == TotalKcal(rows) + row.kcal
  {
    assert (rows + [row])[..|rows|] == rows;
  }

  function Header(days: int): string
  {
    if days == 1 then "<b>Today's records:</b>\n\n"
    else "<b>Records for last " + IntToString(days) + " days:</b>\n\n"
  }

  /** "%s │ %s │ %-4d\n". */
  function Line(row: ReportRow, formatTime: Time -> string): string
  {
    formatTime(row.createdAt) + " │ " + row.name + " │ " + PadRight(IntToString(row.kcal), 4) + "\n"
  }

  function Lines(rows: seq<ReportRow>, formatTime: Time -> string): string
  {
    if rows == [] then "" else Lines(rows[..|rows| - 1], formatTime) + Line(rows[|rows| - 1], formatTime)
  }

  function TotalLine(total: int): string
  {
    "\n\n📋 <b>Total: " + IntToString(total) + " kcal</b>"
  }

  lemma LinesSnoc(rows: seq<ReportRow>, row: ReportRow, formatTime: Time -> string)
    ensures Lines(rows + [row], formatTime) == Lines(rows, formatTime) + Line(row, formatTime)
  {
    assert (rows + [row])[..|rows|] == rows;
  }

  /** The whole report: header, table, and the total line for a one-day window only. */
  function ReportText(days: int, rows: seq<ReportRow>, formatTime: Time -> string): string
  {
    Header(days) + "<pre>" + TABLE_HEAD + TABLE_RULE + Lines(rows, formatTime) + "</pre>"
    + (if days == 1 then TotalLine(TotalKcal(rows)) else "")
  }

  /** Only the one-day report is headed "Today's records". */
  lemma HeaderNamesToday(days: int)
    ensures Header(days) == Header(1) <==> days == 1
  {
    if days != 1 {
      assert Header(days)[3] == 'R' && Header(1)[3] == 'T';
    }
  }

  /** The one-day report ends in the total line; any other ends with the table. */
  lemma TotalOnlyForOneDay(days: int, rows: seq<ReportRow>, formatTime: Time -> string)
    ensures var text := ReportText(days, rows, formatTime); var total := TotalLine(TotalKcal(rows));
      && (days == 1 ==> |text| >= |total| && text[|text| - |total|..] == total)
      && (days != 1 ==> |text| >= 6 && text[|text| - 6..] == "</pre>")
  {
    var body := Header(days) + "<pre>" + TABLE_HEAD + TABLE_RULE + Lines(rows, formatTime);
    var table := body + "</pre>";
    var tail := if days == 1 then TotalLine(TotalKcal(rows)) else "";
    assert ReportText(days, rows, formatTime) == table + tail;
    SuffixOfConcat(table, tail);
    SuffixOfConcat(body, "</pre>");
    if days != 1 {
      assert table + tail == table;
    }
  }

  lemma SuffixOfConcat(a: string, b: string)
    ensures (a + b)[|a|..] == b && |a + b| - |b| == |a|
  {
  }

  /**
   * The report loop: through the newest-first records from the last index
   * down to 0, skipping any whose product lookup fails, adding up the energy.
   */
  method WriteReport(store: Database.Store, days: int, records: seq<Record>, formatTime: Time -> string)
    returns (text: string, totalKcal: int)
    ensures var rows := if store.online then Rows(records, store.products) else [];
      text == ReportText(days, rows, formatTime) && totalKcal == TotalKcal(rows)
  {
    var head := Header(days) + "<pre>" + TABLE_HEAD + TABLE_RULE;
    text := head;
    totalKcal := 0;
    ghost var rows: seq<ReportRow> := [];
    var i := |records|;
    while i > 0
      invariant 0 <= i <= |records|
      invariant store.online ==> rows == Rows(records[i..], store.products)
      invariant !store.online ==> rows == []
      invariant text == head + Lines(rows, formatTime)
      invariant totalKcal == TotalKcal(rows)
    {
      i := i - 1;
      var record := records[i];
      var product := store.GetProductByUUID(record.productUuid);
      match product
      case Failure(_) =>
        SkipStep(records, i, store.products, store.online, product);
      case Success(p) =>
        var row := RowOf(record, p);
        KeepStep(records, i, store.products, store.online, product);
        AppendLine(head, rows, row, formatTime);
        TotalKcalSnoc(rows, row);
        totalKcal := totalKcal + row.kcal;
        text := text + Line(row, formatTime);
        rows := rows + [row];
    }
    assert records[0..] == records;
    text := text + "</pre>";
    if days == 1 {
      text := text + TotalLine(totalKcal);
    }
  }

  /** /get [days] and /today. */
  method HandleGet(store: Database.Store, sender: Sender, args: seq<string>, now: Time, formatTime: Time -> string)
    returns (reply: string)
    ensures ParseDays(args).None? ==> reply == INVALID_DAYS
    ensures ParseDays(args).Some? ==>
      var days := ParseDays(args).value;
      var found := store.RecordsInRange(Login(sender), WindowStart(now, days), now);
      reply == if !store.online then FETCH_ERROR + Database.ErrorText(Database.ConnectionFailed)
               else if found == [] then NoRecordsText(days)
               else ReportText(days, Rows(found, store.products), formatTime)
  {
    var parsed := ParseDays(args);
    if parsed.None? {
      return INVALID_DAYS;
    }
    var days := parsed.value;
    var login := Login(sender);
    var endTime := now;
    var startTime := WindowStart(now, days);
    var records := store.GetRecordsByLoginAndTimeRange(login, startTime, endTime);
    match records
    case Failure(e) =>
      reply := FETCH_ERROR + Database.ErrorText(e);
    case Success(found) =>
      if |found| == 0 {
        reply := NoRecordsText(days);
      } else {
        var total;
        reply, total := WriteReport(store, days, found, formatTime);
      }
  }

  // ---- /record ----

  /** The product /record creates. */
  datatype NewProduct = NewProduct(name: string, ccal: int, proteins: int, fats: int, carbs: int)

  /** An optional macro argument: 0 when absent, else a non-negative int64. */
  function Macro(args: seq<string>, k: nat, error: string): (r: Result<int, string>)
    ensures |args| <= k ==> r == Success(0)
    ensures |args| > k ==> (r.Success? <==> ParseInt(args[k]).Some? && ParseInt(args[k]).value >= 0)
    ensures |args| > k && r.Success? ==> r.value == ParseInt(args[k]).value
    ensures r.Success? ==> 0 <= r.value <= MAX_INT64
    ensures r.Failure? ==> r.error == error
  {
    if |args| <= k then Success(0)
    else
      match ParseInt(args[k])
      case Some(v) => if v < 0 then Failure(error) else Success(v)
      case None => Failure(error)
  }

  /** An energy argument /record accepts: a positive int64. */
  predicate ValidCcal(arg: string)
  {
    ParseInt(arg).Some? && ParseInt(arg).value > 0
  }

  /**
   * /record <name> <ccal> [proteins] [fats] [carbs]: at least two arguments,
   * a positive energy, and macros that default to 0 and may not be negative;
   * checked in that order, the first failure decides the message.
   */
  function ParseRecordArgs(args: seq<string>): (r: Result<NewProduct, string>)
    ensures |args| < 2 ==> r == Failure(RECORD_USAGE)
    ensures |args| >= 2 ==> (r.Success? <==>
      ValidCcal(args[1]) && Macro(args, 2, PROTEINS_ERROR).Success?
      && Macro(args, 3, FATS_ERROR).Success? && Macro(args, 4, CARBS_ERROR).Success?)
    ensures r.Success? ==> |args| >= 2 && r.value == NewProduct(args[0], ParseInt(args[1]).value,
      Macro(args, 2, PROTEINS_ERROR).value, Macro(args, 3, FATS_ERROR).value, Macro(args, 4, CARBS_ERROR).value)
    ensures r.Success? ==> (0 < r.value.ccal <= MAX_INT64
      && 0 <= r.value.proteins <= MAX_INT64 && 0 <= r.value.fats <= MAX_INT64 && 0 <= r.value.carbs <= MAX_INT64)
    ensures |args| >= 2 && r.Failure? ==>
      r.error == (if !ValidCcal(args[1]) then CCAL_ERROR
      else if Macro(args, 2, PROTEINS_ERROR).Failure? then PROTEINS_ERROR
      else if Macro(args, 3, FATS_ERROR).Failure? then FATS_ERROR
      else CARBS_ERROR)
  {
    if |args| < 2 then Failure(RECORD_USAGE)
    else
      match ParseInt(args[1])
      case None => Failure(CCAL_ERROR)
      case Some(ccal) =>
        if ccal <= 0 then Failure(CCAL_ERROR)
        else
          match (Macro(args, 2, PROTEINS_ERROR), Macro(args, 3, FATS_ERROR), Macro(args, 4, CARBS_ERROR))
          case (Failure(e), _, _) => Failure(e)
          case (_, Failure(e), _) => Failure(e)
          case (_, _, Failure(e)) => Failure(e)
          case (Success(p), Success(f), Success(c)) => Success(NewProduct(args[0], ccal, p, f, c))
  }

  /** Five arguments whose numbers parse within bounds give the product they denote. */
  lemma RecordArgsAccepted(args: seq<string>, ccal: int, proteins: int, fats: int, carbs: int)
    requires |args| == 5 && ParseInt(args[1]) == Some(ccal) && ccal > 0
    requires ParseInt(args[2]) == Some(proteins) && ParseInt(args[3]) == Some(fats) && ParseInt(args[4]) == Some(carbs)
    requires proteins >= 0 && fats >= 0 && carbs >= 0
    ensures ParseRecordArgs(args) == Success(NewProduct(args[0], ccal, proteins, fats, carbs))
  {
  }

  /** Arguments printed from valid values are read back as those values. */
  lemma RecordArgsRoundTrip(name: string, ccal: int, proteins: int, fats: int, carbs: int)
    requires 0 < ccal <= MAX_INT64
    requires 0 <= proteins <= MAX_INT64 && 0 <= fats <= MAX_INT64 && 0 <= carbs <= MAX_INT64
    ensures ParseRecordArgs([name, IntToString(ccal), IntToString(proteins), IntToString(fats), IntToString(carbs)])
            == Success(NewProduct(name, ccal, proteins, fats, carbs))
  {
    var args := [name, IntToString(ccal), IntToString(proteins), IntToString(fats), IntToString(carbs)];
    ParseIntRoundTrip(ccal);
    ParseIntRoundTrip(proteins);
    ParseIntRoundTrip(fats);
    ParseIntRoundTrip(carbs);
    RecordArgsAccepted(args, ccal, proteins, fats, carbs);
  }

  /** Without macro arguments, the macros are 0. */
  lemma RecordArgsDefaultMacros(name: string, ccal: int)
    requires 0 < ccal <= MAX_INT64
    ensures ParseRecordArgs([name, IntToString(ccal)]) == Success(NewProduct(name, ccal, 0, 0, 0))
  {
    ParseIntRoundTrip(ccal);
  }

  /** A non-positive energy is refused with the calories message, whatever else is given. */
  lemma RecordArgsRejectNonPositiveCcal(name: string, ccal: int, rest: seq<string>)
    requires MIN_INT64 <= ccal <= 0
    ensures ParseRecordArgs([name, IntToString(ccal)] + rest) == Failure(CCAL_ERROR)
  {
    ParseIntRoundTrip(ccal);
  }

  /** A negative protein amount is refused with the proteins message. */
  lemma RecordArgsRejectNegativeProteins(name: string, ccal: int, proteins: int, rest: seq<string>)
    requires 0 < ccal <= MAX_INT64 && MIN_INT64 <= proteins < 0
    ensures ParseRecordArgs([name, IntToString(ccal), IntToString(proteins)] + rest) == Failure(PROTEINS_ERROR)
  {
    ParseIntRoundTrip(ccal);
    ParseIntRoundTrip(proteins);
  }

  /** An energy that is not a decimal integer is refused with the calories message. */
  lemma RecordArgsRejectMalformedCcal(name: string, ccal: string, rest: seq<string>)
    requires !IsDecimalText(ccal)
    ensures ParseRecordArgs([name, ccal] + rest) == Failure(CCAL_ERROR)
  {
    ParseIntMeaning(ccal);
  }

  /** A malformed or negative fats amount, after a valid energy and proteins, is refused with the fats message. */
  lemma RecordArgsRejectBadFats(name: string, ccal: int, proteins: int, fats: string, rest: seq<string>)
    requires 0 < ccal <= MAX_INT64 && 0 <= proteins <= MAX_INT64
    requires !IsDecimalText(fats) || TextValue(fats) < 0
    ensures ParseRecordArgs([name, IntToString(ccal), IntToString(proteins), fats] + rest) == Failure(FATS_ERROR)
  {
    ParseIntRoundTrip(ccal);
    ParseIntRoundTrip(proteins);
    ParseIntMeaning(fats);
  }

  /** A malformed or negative carbs amount, after valid earlier arguments, is refused with the carbs message. */
  lemma RecordArgsRejectBadCarbs(name: string, ccal: int, proteins: int, fats: int, carbs: string, rest: seq<string>)
    requires 0 < ccal <= MAX_INT64 && 0 <= proteins <= MAX_INT64 && 0 <= fats <= MAX_INT64
    requires !IsDecimalText(carbs) || TextValue(carbs) < 0
    ensures ParseRecordArgs([name, IntToString(ccal), IntToString(proteins), IntToString(fats), carbs] + rest)
      == Failure(CARBS_ERROR)
  {
    ParseIntRoundTrip(ccal);
    ParseIntRoundTrip(proteins);
    ParseIntRoundTrip(fats);
    ParseIntMeaning(carbs);
  }

  /** /record: create the product, then log one unit of it for the sender. */
  method HandleRecord(store: Database.Store, sender: Sender, args: seq<string>, now: Time, formatUuid: Uuid -> string)
    returns (reply: string)
    requires store.Valid()
    modifies store
    ensures store.Valid()
    ensures store.online == old(store.online)
    ensures ParseRecordArgs(args).Failure? ==>
      reply == ParseRecordArgs(args).error
      && store.products == old(store.products) && store.records == old(store.records)
    ensures ParseRecordArgs(args).Success? && !store.online ==>
      reply == "❌ Error creating product: " + Database.ErrorText(Database.ConnectionFailed)
      && store.products == old(store.products) && store.records == old(store.records)
    ensures ParseRecordArgs(args).Success? && store.online ==>
      var np := ParseRecordArgs(args).value;
      && |store.products| == |old(store.products)| + 1 && store.products[..|old(store.products)|] == old(store.products)
      && |store.records| == |old(store.records)| + 1 && store.records[..|old(store.records)|] == old(store.records)
      && var p := store.products[|store.products| - 1]; var r := store.records[|store.records| - 1];
      && p.name == np.name && p.ccal == np.ccal && p.proteins == np.proteins && p.fats == np.fats && p.carbs == np.carbs
      && r.productUuid == p.uuid && r.amount == 1 && r.login == Login(sender) && r.createdAt == now
      && reply == "✅ Recorded: " + np.name + "\n📊 Calories: " + IntToString(np.ccal) + "\nID: " + formatUuid(r.uuid)
    ensures store.items == old(store.items) && store.preferences == old(store.preferences)
  {
    var parsed := ParseRecordArgs(args);
    match parsed
    case Failure(message) =>
      reply := message;
    case Success(np) =>
      var product := store.InsertProduct(np.name, np.ccal, np.fats, np.proteins, np.carbs);
      match product
      case Failure(e) =>
        reply := "❌ Error creating product: " + Database.ErrorText(e);
      case Success(p) =>
        var login := Login(sender);
        var record := store.InsertRecord(p.uuid, 1, login, now);
        match record
        case Failure(e) =>
          reply := "❌ Error creating record: " + Database.ErrorText(e);
        case Success(r) =>
          reply := "✅ Recorded: " + np.name + "\n📊 Calories: " + IntToString(np.ccal) + "\nID: " + formatUuid(r.uuid);
  }

  // ---- /set_noon and /set_lang ----

  /** /set_lang <lang>: only "ru" and "en" are accepted. */
  function ParseLang(args: seq<string>): (r: Result<string, string>)
    ensures r.Success? <==> |args| > 0 && (args[0] == "ru" || args[0] == "en")
    ensures r.Success? ==> r.value == args[0]
    ensures |args| == 0 ==> r == Failure(LANG_USAGE)
    ensures |args| > 0 && r.Failure? ==> r.error == LANG_UNSUPPORTED
  {
    if |args| == 0 then Failure(LANG_USAGE)
    else if args[0] != "ru" && args[0] != "en" then Failure(LANG_UNSUPPORTED)
    else Success(args[0])
  }

  method HandleSetLang(store: Database.Store, sender: Sender, args: seq<string>) returns (reply: string)
    requires store.Valid()
    modifies store
    ensures store.Valid()
    ensures store.online == old(store.online)
    ensures store.products == old(store.products) && store.records == old(store.records) && store.items == old(store.items)
    ensures ParseLang(args).Failure? ==> reply == ParseLang(args).error && store.preferences == old(store.preferences)
    ensures ParseLang(args).Success? && !store.online ==>
      reply == "❌ Error setting language: " + Database.ErrorText(Database.ConnectionFailed)
      && store.preferences == old(store.preferences)
    ensures ParseLang(args).Success? && store.online ==>
      reply == "✅ Language set to " + args[0]
      && store.preferences == Database.SetLang(old(store.preferences), Login(sender), args[0])
  {
    var parsed := ParseLang(args);
    match parsed
    case Failure(message) =>
      reply := message;
    case Success(lang) =>
      var login := Login(sender);
      var err := store.UpsertUserLang(login, lang);
      match err
      case Some(e) =>
        reply := "❌ Error setting language: " + Database.ErrorText(e);
      case None =>
        reply := "✅ Language set to " + lang;
  }

  /** /set_noon <HH:MM>; `parseClock` stands for time.Parse("15:04:05", ·). */
  method HandleSetNoon(store: Database.Store, sender: Sender, args: seq<string>, parseClock: string -> Option<Time>)
    returns (reply: string)
    requires store.Valid()
    modifies store
    ensures store.Valid()
    ensures store.online == old(store.online)
    ensures store.products == old(store.products) && store.records == old(store.records) && store.items == old(store.items)
    ensures |args| == 0 ==> reply == NOON_USAGE && store.preferences == old(store.preferences)
    ensures |args| > 0 && parseClock(args[0] + ":00").None? ==>
      reply == NOON_INVALID && store.preferences == old(store.preferences)
    ensures |args| > 0 && parseClock(args[0] + ":00").Some? && !store.online ==>
      reply == "❌ Error setting day flip time: " + Database.ErrorText(Database.ConnectionFailed)
      && store.preferences == old(store.preferences)
    ensures |args| > 0 && parseClock(args[0] + ":00").Some? && store.online ==>
      reply == "✅ Day flip time set to " + args[0]
      && store.preferences == Database.SetNoon(old(store.preferences), Login(sender), parseClock(args[0] + ":00").value)
  {
    if |args| == 0 {
      return NOON_USAGE;
    }
    var noon := parseClock(args[0] + ":00");
    match noon
    case None =>
      reply := NOON_INVALID;
    case Some(t) =>
      var login := Login(sender);
      var err := store.UpsertUserNoon(login, t);
      match err
      case Some(e) =>
        reply := "❌ Error setting day flip time: " + Database.ErrorText(e);
      case None =>
        reply := "✅ Day flip time set to " + args[0];
  }
}
