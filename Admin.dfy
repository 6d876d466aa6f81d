/** The admin commands of `handlers/admin.py` over the request store: who may run them, how the
    id argument is read, what delete, search, export, the recent and today listings and the
    statistics compute, and the broadcast loop. */
module Admin {
  import opened Wrappers
  import opened PyText
  import opened Models
  import opened GoogleSheets
  import opened Fsm
  import Settings

  /** `is_admin`: the sender is the configured admin chat. */
  predicate IsAdmin(userId: int, adminId: int)
  {
    userId == adminId
  }

  datatype Command = AdminMenu | Stats | Requests | Export | Today | Search | Delete | Broadcast | HelpAdmin

  function CommandName(c: Command): string
  {
    match c
    case AdminMenu => "admin"
    case Stats => "stats"
    case Requests => "requests"
    case Export => "export"
    case Today => "today"
    case Search => "search"
    case Delete => "delete"
    case Broadcast => "broadcast"
    case HelpAdmin => "help_admin"
  }

  /** The command a first word stands for: a slash and the command's name. */
  function CommandNamed(word: string): (c: Option<Command>)
    ensures c.Some? ==> word == "/" + CommandName(c.value)
  {
    if word == "/" + CommandName(AdminMenu) then Some(AdminMenu)
    else if word == "/" + CommandName(Stats) then Some(Stats)
    else if word == "/" + CommandName(Requests) then Some(Requests)
    else if word == "/" + CommandName(Export) then Some(Export)
    else if word == "/" + CommandName(Today) then Some(Today)
    else if word == "/" + CommandName(Search) then Some(Search)
    else if word == "/" + CommandName(Delete) then Some(Delete)
    else if word == "/" + CommandName(Broadcast) then Some(Broadcast)
    else if word == "/" + CommandName(HelpAdmin) then Some(HelpAdmin)
    else None
  }

  /** Every command is recognised by its own name, so no two commands share one. */
  lemma CommandNamedName(k: Command)
    ensures CommandNamed("/" + CommandName(k)) == Some(k)
  {
    // The length and the first letter tell every two names apart.
    assert forall j: Command ::
      (|"/" + CommandName(j)| == |CommandName(j)| + 1 && ("/" + CommandName(j))[1] == CommandName(j)[0]);
    match k {
      case AdminMenu =>
      case Stats =>
      case Requests =>
      case Export =>
      case Today =>
      case Search =>
      case Delete =>
      case Broadcast =>
      case HelpAdmin =>
    }
  }

  /** The `Command(...)` filter: the first word of the text is a slash and the command's name. */
  function CommandOf(text: string): (c: Option<Command>)
    ensures c.Some? ==> |Words(text)| > 0 && Words(text)[0] == "/" + CommandName(c.value)
  {
    var w := Words(text);
    if |w| == 0 then None else CommandNamed(w[0])
  }

  /** A command name with or without arguments after white space is recognised as that command. */
  lemma CommandRecognised(k: Command, rest: string)
    requires rest == [] || IsSpace(rest[0])
    ensures CommandOf("/" + CommandName(k) + rest) == Some(k)
  {
    var w := "/" + CommandName(k);
    assert NoSpace(w) by {
      forall i | 0 <= i < |w| ensures !IsSpace(w[i]) {
        assert w[i] == '/' || w[i] == '_' || 'a' <= w[i] <= 'z';
      }
    }
    WordsCons(w, rest);
    CommandNamedName(k);
  }

  /** The commands that answer "no access" to everybody but the admin. */
  predicate Guarded(c: Command)
  {
    c == AdminMenu || c == Stats || c == Requests || c == Export
  }

  /** Which handler of the admin router takes a text message. */
  datatype AdminRoute = Run(cmd: Command) | RunBroadcastText | AccessDenied | NotHandled

  /** The handlers in their registration order: the eight commands up to `/broadcast`, then the
      broadcast text in broadcast mode, then `/help_admin`, all for the admin only; then the
      access-denied reply for the four guarded commands. */
  function RouteAdmin(text: string, userId: int, adminId: int, state: Option<string>): AdminRoute
  {
    var c := CommandOf(text);
    if IsAdmin(userId, adminId) && c.Some? && c.value != HelpAdmin then Run(c.value)
    else if IsAdmin(userId, adminId) && state == Some(BroadcastWaiting) then RunBroadcastText
    else if IsAdmin(userId, adminId) && c == Some(HelpAdmin) then Run(HelpAdmin)
    else if c.Some? && Guarded(c.value) then AccessDenied
    else NotHandled
  }

  /** A non-admin never reaches an admin handler, and is told "no access" exactly for the four
      guarded commands; every other text falls through. */
  lemma NonAdminRouting(text: string, userId: int, adminId: int, state: Option<string>)
    requires !IsAdmin(userId, adminId)
    ensures !RouteAdmin(text, userId, adminId, state).Run? && !RouteAdmin(text, userId, adminId, state).RunBroadcastText?
    ensures RouteAdmin(text, userId, adminId, state).AccessDenied?
      <==> (CommandOf(text).Some? && Guarded(CommandOf(text).value))
  {
  }

  /** The admin reaches the handler of every command, and never sees the access-denied reply. */
  lemma AdminRouting(text: string, adminId: int, state: Option<string>)
    ensures CommandOf(text).Some? && CommandOf(text).value != HelpAdmin
      ==> RouteAdmin(text, adminId, adminId, state) == Run(CommandOf(text).value)
    ensures !RouteAdmin(text, adminId, adminId, state).AccessDenied?
    ensures state == Some(BroadcastWaiting) && CommandOf(text).None?
      ==> RouteAdmin(text, adminId, adminId, state) == RunBroadcastText
  {
  }

  /** For a user who is not the admin, `/admin`, `/stats`, `/requests` and `/export` (with any
      arguments) get "no access", and the other admin commands no reply at all. */
  lemma NonAdminCommand(k: Command, rest: string, userId: int, adminId: int, state: Option<string>)
    requires !IsAdmin(userId, adminId)
    requires rest == [] || IsSpace(rest[0])
    ensures Guarded(k) ==> RouteAdmin("/" + CommandName(k) + rest, userId, adminId, state) == AccessDenied
    ensures !Guarded(k) ==> RouteAdmin("/" + CommandName(k) + rest, userId, adminId, state) == NotHandled
  {
    CommandRecognised(k, rest);
  }

  /** The admin's command reaches its handler, except `/help_admin` in broadcast mode, which the
      broadcast text handler registered before it takes. */
  lemma AdminCommandRuns(k: Command, rest: string, adminId: int, state: Option<string>)
    requires rest == [] || IsSpace(rest[0])
    ensures k != HelpAdmin || state != Some(BroadcastWaiting)
      ==> RouteAdmin("/" + CommandName(k) + rest, adminId, adminId, state) == Run(k)
    ensures k == HelpAdmin && state == Some(BroadcastWaiting)
      ==> RouteAdmin("/" + CommandName(k) + rest, adminId, adminId, state) == RunBroadcastText
  {
    CommandRecognised(k, rest);
  }

  /** The routing as registered. The broadcast text handler is filtered on
      `F.state == "broadcast_waiting"`, a test of an attribute of the message itself; a message
      has no such attribute, so that filter never matches and the handler is never run. */
  function RouteAdminAsWritten(text: string, userId: int, adminId: int, state: Option<string>): (r: AdminRoute)
    ensures r != RunBroadcastText
    ensures CommandOf(text).None? ==> r == NotHandled
    ensures IsAdmin(userId, adminId) && CommandOf(text).Some? ==> r == Run(CommandOf(text).value)
  {
    var c := CommandOf(text);
    if IsAdmin(userId, adminId) && c.Some? then Run(c.value)
    else if c.Some? && Guarded(c.value) then AccessDenied
    else NotHandled
  }

  /** The two routings differ only on the broadcast text: the admin in broadcast mode who sends
      the text to broadcast reaches the broadcast handler in `RouteAdmin`, and no handler at all
      as registered. */
  lemma BroadcastTextUnrouted(adminId: int)
    ensures RouteAdminAsWritten("hello", adminId, adminId, Some(BroadcastWaiting)) == NotHandled
    ensures RouteAdmin("hello", adminId, adminId, Some(BroadcastWaiting)) == RunBroadcastText
  {
    assert NoSpace("hello") by {
      forall i | 0 <= i < |"hello"| ensures !IsSpace("hello"[i]) { }
    }
    WordsCons("hello", "");
    assert "hello" + "" == "hello";
    assert Words("") == [];
    assert CommandOf("hello").None? by {
      assert "hello"[0] != '/';
    }
  }

  /** For other users, outside broadcast mode, and for every command but `/help_admin`, the two
      routings agree. */
  lemma RoutingsAgree(text: string, userId: int, adminId: int, state: Option<string>)
    requires || !IsAdmin(userId, adminId) || state != Some(BroadcastWaiting)
             || (CommandOf(text).Some? && CommandOf(text).value != HelpAdmin)
    ensures RouteAdminAsWritten(text, userId, adminId, state) == RouteAdmin(text, userId, adminId, state)
  {
  }

  /** Without `ADMIN_CHAT_ID` in the environment only user 0 counts as the admin. */
  lemma DefaultAdmin(userId: int)
    ensures Settings.AdminChatId(None) == Some(0)
    ensures IsAdmin(userId, Settings.AdminChatId(None).value) <==> userId == 0
  {
  }

  /** `int(message.text.split()[1])`: the second word as an integer, None on `IndexError` or
      `ValueError`. */
  function ParseIdArg(text: string): (r: Option<int>)
    ensures |Words(text)| < 2 ==> r.None?
    ensures r.Some? ==> PyInt(Words(text)[1]) == r
    ensures r.None? ==> |Words(text)| < 2 || PyInt(Words(text)[1]).None?
  {
    var w := Words(text);
    if |w| < 2 then None else PyInt(w[1])
  }

  /** The id is read back from a command followed by the decimal text of any integer. */
  lemma IdArgParsed(cmd: string, n: int)
    requires cmd != [] && NoSpace(cmd)
    ensures ParseIdArg(cmd + " " + Show(n)) == Some(n)
  {
    ShowNoSpace(n);
    ParseShow(n);
    var s := Show(n);
    WordsCons(cmd, " " + s);
    assert (" " + s)[1..] == s;
    WordsCons(s, []);
    assert s + [] == s;
    assert cmd + " " + s == cmd + (" " + s);
  }

  /** Any spelling `int()` accepts is read as the id: leading zeros, a sign, and so on. */
  lemma IdArgAnySpelling(cmd: string, arg: string)
    requires cmd != [] && NoSpace(cmd) && arg != [] && NoSpace(arg)
    ensures ParseIdArg(cmd + " " + arg) == PyInt(arg)
  {
    SecondWord(cmd, arg, []);
    assert cmd + " " + arg == cmd + (" " + (arg + []));
  }

  /** Words after the id are ignored. */
  lemma IdArgParsedWithRest(cmd: string, n: int, rest: string)
    requires cmd != [] && NoSpace(cmd)
    ensures ParseIdArg(cmd + " " + Show(n) + " " + rest) == Some(n)
  {
    ShowNoSpace(n);
    ParseShow(n);
    var s := Show(n);
    SecondWord(cmd, s, " " + rest);
    assert cmd + " " + s + " " + rest == cmd + (" " + (s + (" " + rest)));
  }

  lemma SecondWord(cmd: string, s: string, after: string)
    requires cmd != [] && NoSpace(cmd) && s != [] && NoSpace(s)
    requires after == [] || IsSpace(after[0])
    ensures var w := Words(cmd + (" " + (s + after))); |w| >= 2 && w[1] == s
  {
    var tail := " " + (s + after);
    WordsCons(cmd, tail);
    assert tail[1..] == s + after;
    WordsCons(s, after);
  }

  /** A bare command has no id argument. */
  lemma IdArgMissing(cmd: string)
    requires cmd != [] && NoSpace(cmd)
    ensures ParseIdArg(cmd).None?
  {
    WordsCons(cmd, []);
    assert cmd + [] == cmd;
  }

  datatype SearchReply = SearchUsage | SearchNotFound(id: int) | SearchFound(request: Request)

  /** `/search`: usage without a valid id, otherwise the stored row with that id or not-found. */
  function CmdSearch(text: string, rows: seq<Request>): (reply: SearchReply)
    ensures reply == SearchUsage <==> ParseIdArg(text).None?
    ensures reply.SearchFound? ==> reply.request in rows && Some(reply.request.id) == ParseIdArg(text)
    ensures reply.SearchNotFound? ==> Some(reply.id) == ParseIdArg(text) && forall q :: q in rows ==> q.id != reply.id
  {
    match ParseIdArg(text)
    case None => SearchUsage
    case Some(id) =>
      match FindById(rows, id)
      case None => SearchNotFound(id)
      case Some(r) => SearchFound(r)
  }

  datatype DeleteReply = DeleteUsage | DeleteNotFound(id: int) | Deleted(request: Request)

  /** `/delete`: usage without a valid id (no lookup), not-found with the store untouched, or
      the row with that id removed and reported. */
  method CmdDelete(store: RequestStore, text: string) returns (reply: DeleteReply)
    requires store.Valid()
    modifies store
    ensures store.Valid() && store.nextId == old(store.nextId)
    ensures ParseIdArg(text).None? ==> reply == DeleteUsage && store.rows == old(store.rows)
    ensures ParseIdArg(text).Some? && FindById(old(store.rows), ParseIdArg(text).value).None?
      ==> reply == DeleteNotFound(ParseIdArg(text).value) && store.rows == old(store.rows)
    ensures reply.Deleted? ==>
      && Some(reply.request) == FindById(old(store.rows), ParseIdArg(text).value)
      && store.rows == Without(old(store.rows), reply.request.id)
      && multiset(store.rows) + multiset{reply.request} == multiset(old(store.rows))
    ensures ParseIdArg(text).Some? && FindById(old(store.rows), ParseIdArg(text).value).Some? ==> reply.Deleted?
  {
    var id := ParseIdArg(text);
    if id.None? {
      return DeleteUsage;
    }
    var found := FindById(store.rows, id.value);
    if found.None? {
      return DeleteNotFound(id.value);
    }
    WithoutRemovesOne(store.rows, id.value);
    var removed := store.Delete(id.value);
    reply := Deleted(removed.value);
  }

  const ExportHeader: seq<string> := ["ID", "User ID", "Username", "Направление", "Дата вылета",
    "Ночей", "Взрослых", "Детей", "Бюджет", "Комментарий", "Создана"]

  /** One CSV data row, in header order. */
  function ExportRow(r: Request): (row: seq<Cell>)
    ensures |row| == |ExportHeader| == 11
  {
    var f := r.fields;
    [IntCell(r.id), IntCell(f.userId), TextCell(OrText(f.username, "N/A")), TextCell(f.destination),
     TextCell(f.departureDate), IntCell(f.nights), IntCell(f.adults), IntCell(f.children),
     IntCell(f.budget), TextCell(OrText(f.comment, "Нет")), TimeCell(r.createdAt)]
  }

  /** Column by column: the key and the stored values, with `N/A` for a missing or empty username
      and `Нет` for a missing or empty comment. */
  lemma ExportRowColumns(r: Request)
    ensures ExportRow(r)[0] == IntCell(r.id) && ExportRow(r)[1] == IntCell(r.fields.userId)
    ensures ExportRow(r)[3] == TextCell(r.fields.destination) && ExportRow(r)[4] == TextCell(r.fields.departureDate)
    ensures ExportRow(r)[5..9] == [IntCell(r.fields.nights), IntCell(r.fields.adults), IntCell(r.fields.children), IntCell(r.fields.budget)]
    ensures ExportRow(r)[10] == TimeCell(r.createdAt)
    ensures r.fields.username.None? || r.fields.username == Some([]) ==> ExportRow(r)[2] == TextCell("N/A")
    ensures r.fields.comment.None? || r.fields.comment == Some([]) ==> ExportRow(r)[9] == TextCell("Нет")
    ensures r.fields.username.Some? && r.fields.username.value != [] ==> ExportRow(r)[2] == TextCell(r.fields.username.value)
    ensures r.fields.comment.Some? && r.fields.comment.value != [] ==> ExportRow(r)[9] == TextCell(r.fields.comment.value)
  {
  }

  /** The spreadsheet row and the CSV export row have the same columns in the same order with
      the same fallbacks, so both line up under the export header. */
  lemma SheetRowIsExportRow(r: Request)
    ensures SheetRow(r) == ExportRow(r)
    ensures |SheetRow(r)| == |ExportHeader|
  {
  }

  /** The data rows of a list of requests, one per request, in the same order. */
  function ExportRows(rows: seq<Request>): (body: seq<seq<Cell>>)
    ensures |body| == |rows| && forall i :: 0 <= i < |rows| ==> body[i] == ExportRow(rows[i])
  {
    if rows == [] then [] else [ExportRow(rows[0])] + ExportRows(rows[1..])
  }

  datatype CsvFile = CsvFile(header: seq<string>, body: seq<seq<Cell>>)

  /** `/export`: no file for an empty table; otherwise the header and one row per request,
      newest first. */
  function CmdExport(rows: seq<Request>): (file: Option<CsvFile>)
    ensures file.None? <==> rows == []
    ensures file.Some? ==> file.value.header == ExportHeader && |file.value.body| == |rows|
    ensures file.Some? ==> exists sorted: seq<Request> ::
      NewestFirst(sorted) && multiset(sorted) == multiset(rows) && file.value.body == ExportRows(sorted)
  {
    if rows == [] then None else
      var sorted := SortNewestFirst(rows);
      Some(CsvFile(ExportHeader, ExportRows(sorted)))
  }

  /** At most this many rows are listed by `/requests`. */
  const RecentLimit: nat := 10

  /** `/requests`: the ten newest requests, newest first. */
  function Recent(rows: seq<Request>): (r: seq<Request>)
    ensures |r| == if |rows| < RecentLimit then |rows| else RecentLimit
    ensures NewestFirst(r)
    ensures multiset(r) <= multiset(rows)
    ensures forall p, q :: p in r && q in multiset(rows) - multiset(r) ==> p.createdAt >= q.createdAt
  {
    var sorted := SortNewestFirst(rows);
    var k := if |rows| < RecentLimit then |rows| else RecentLimit;
    PrefixIsNewest(sorted, k);
    sorted[..k]
  }

  /** A prefix of newest-first rows holds rows at least as new as all the rest. */
  lemma PrefixIsNewest(s: seq<Request>, k: nat)
    requires NewestFirst(s) && k <= |s|
    ensures NewestFirst(s[..k]) && multiset(s[..k]) <= multiset(s)
    ensures forall p, q :: p in s[..k] && q in multiset(s) - multiset(s[..k]) ==> p.createdAt >= q.createdAt
  {
    assert s == s[..k] + s[k..];
    assert multiset(s) == multiset(s[..k]) + multiset(s[k..]);
    forall p, q | p in s[..k] && q in multiset(s) - multiset(s[..k]) ensures p.createdAt >= q.createdAt {
      assert q in s[k..];
      var i :| 0 <= i < k && s[..k][i] == p;
      var j :| 0 <= j < |s[k..]| && s[k..][j] == q;
      assert s[i] == p && s[k + j] == q;
    }
  }

  /** Clock ticks in one day. */
  const TicksPerDay: nat := 86400

  /** `datetime.now().replace(hour=0, minute=0, second=0, microsecond=0)` on the tick clock. */
  function DayStart(now: int): (start: int)
    ensures start <= now < start + TicksPerDay
  {
    now - now % TicksPerDay
  }

  /** The rows created at or after `start`, in their order, each as often as in the table. */
  function Since(rows: seq<Request>, start: int): (r: seq<Request>)
    ensures forall q :: q in r <==> q in rows && q.createdAt >= start
    ensures forall q :: multiset(r)[q] == if q.createdAt >= start then multiset(rows)[q] else 0
    ensures |r| <= |rows|
  {
    if rows == [] then []
    else
      var rest := Since(rows[1..], start);
      assert rows == [rows[0]] + rows[1..];
      assert multiset(rows) == multiset{rows[0]} + multiset(rows[1..]);
      assert forall q :: q in rows ==> q == rows[0] || q in rows[1..];
      if rows[0].createdAt >= start then [rows[0]] + rest else rest
  }

  /** `/today`: the requests created since today's midnight, newest first. */
  function TodayRows(rows: seq<Request>, now: int): (r: seq<Request>)
    ensures NewestFirst(r)
    ensures forall q :: q in r <==> q in rows && q.createdAt >= DayStart(now)
    ensures multiset(r) == multiset(Since(rows, DayStart(now)))
  {
    var s := SortNewestFirst(Since(rows, DayStart(now)));
    assert forall q :: q in s <==> q in multiset(s);
    s
  }

  /** Counting from a later start never counts more. */
  lemma {:induction false} SinceMonotone(rows: seq<Request>, early: int, late: int)
    requires early <= late
    ensures |Since(rows, late)| <= |Since(rows, early)|
  {
    if rows != [] {
      SinceMonotone(rows[1..], early, late);
    }
  }

  function SumBudget(rows: seq<Request>): int
  {
    if rows == [] then 0 else SumBudget(rows[..|rows| - 1]) + rows[|rows| - 1].fields.budget
  }

  /** `total / count if count > 0 else 0`, as an exact quotient. */
  function Average(total: int, count: nat): real
  {
    if count > 0 then total as real / count as real else 0.0
  }

  datatype Statistics = Statistics(
    total: nat, today: nat, week: nat, month: nat,
    totalBudget: int, averageBudget: real, uniqueUsers: nat)

  /** `/stats` over the table at clock `now`. */
  function CmdStats(rows: seq<Request>, now: int): (s: Statistics)
    ensures s.today <= s.week <= s.month <= s.total == |rows|
    ensures s.today == |Since(rows, DayStart(now))|
    ensures s.week == |Since(rows, now - 7 * TicksPerDay)| && s.month == |Since(rows, now - 30 * TicksPerDay)|
    ensures s.uniqueUsers == |UsersOf(rows)| <= s.total
    ensures s.totalBudget == SumBudget(rows)
    ensures rows == [] ==> s.totalBudget == 0 && s.averageBudget == 0.0
    ensures IsMean(s.averageBudget, s.totalBudget, |rows|)
  {
    var today := Since(rows, DayStart(now));
    var week := Since(rows, now - 7 * TicksPerDay);
    var month := Since(rows, now - 30 * TicksPerDay);
    WindowsNested(rows, now);
    DistinctCount(rows);
    DistinctIsUsers(rows);
    var total := SumBudget(rows);
    AverageTimesCount(total, |rows|);
    Statistics(|rows|, |today|, |week|, |month|, total, Average(total, |rows|), |DistinctUserIds(rows)|)
  }

  /** Today lies within the last week, and the last week within the last thirty days. */
  lemma WindowsNested(rows: seq<Request>, now: int)
    ensures |Since(rows, DayStart(now))| <= |Since(rows, now - 7 * TicksPerDay)|
    ensures |Since(rows, now - 7 * TicksPerDay)| <= |Since(rows, now - 30 * TicksPerDay)|
  {
    SinceMonotone(rows, now - 7 * TicksPerDay, DayStart(now));
    SinceMonotone(rows, now - 30 * TicksPerDay, now - 7 * TicksPerDay);
  }

  /** `avg` is the mean of `count` values summing to `total`: times the count it gives back the
      total. */
  predicate IsMean(avg: real, total: int, count: nat)
  {
    count > 0 ==> avg * (count as real) == total as real
  }

  lemma AverageTimesCount(total: int, count: nat)
    ensures IsMean(Average(total, count), total, count)
  {
  }

  /** Every budget lies between these bounds. */
  predicate BudgetsWithin(rows: seq<Request>, lo: int, hi: int)
  {
    forall q :: q in rows ==> lo <= q.fields.budget <= hi
  }

  lemma {:induction false} SumBounds(rows: seq<Request>, lo: int, hi: int)
    requires BudgetsWithin(rows, lo, hi)
    ensures |rows| * lo <= SumBudget(rows) <= |rows| * hi
  {
    if rows != [] {
      var init := rows[..|rows| - 1];
      WithinInit(rows, lo, hi);
      SumBounds(init, lo, hi);
      MulSucc(|init|, lo);
      MulSucc(|init|, hi);
    }
  }

  lemma WithinInit(rows: seq<Request>, lo: int, hi: int)
    requires rows != [] && BudgetsWithin(rows, lo, hi)
    ensures BudgetsWithin(rows[..|rows| - 1], lo, hi)
    ensures lo <= rows[|rows| - 1].fields.budget <= hi
  {
    assert forall q :: q in rows[..|rows| - 1] ==> q in rows;
    assert rows[|rows| - 1] in rows;
  }

  lemma MulSucc(n: nat, x: int)
    ensures (n + 1) * x == n * x + x
  {
  }

  /** The average budget lies between the smallest and largest budget. */
  lemma AverageWithin(rows: seq<Request>, now: int, lo: int, hi: int)
    requires rows != [] && BudgetsWithin(rows, lo, hi)
    ensures lo as real <= CmdStats(rows, now).averageBudget <= hi as real
  {
    SumBounds(rows, lo, hi);
    var n := |rows|;
    var t := SumBudget(rows);
    assert CmdStats(rows, now).averageBudget == t as real / n as real;
    QuotientBounds(t, n, lo, hi);
  }

  lemma QuotientBounds(t: int, n: nat, lo: int, hi: int)
    requires n > 0 && n * lo <= t <= n * hi
    ensures lo as real <= t as real / n as real <= hi as real
  {
    var q := t as real / n as real;
    assert q * n as real == t as real;
    assert (n * lo) as real == n as real * lo as real;
    assert (n * hi) as real == n as real * hi as real;
  }

  /** The set of users who have filed a request. */
  function UsersOf(rows: seq<Request>): set<int>
  {
    set q | q in rows :: q.fields.userId
  }

  predicate NoDuplicates(ids: seq<int>)
  {
    forall i, j :: 0 <= i < j < |ids| ==> ids[i] != ids[j]
  }

  /** `SELECT DISTINCT user_id`: each user once, in order of first appearance from the end. */
  function DistinctUserIds(rows: seq<Request>): (ids: seq<int>)
    ensures NoDuplicates(ids)
    ensures forall u :: u in ids <==> u in UsersOf(rows)
  {
    if rows == [] then []
    else
      var init := rows[..|rows| - 1];
      var last := rows[|rows| - 1];
      var ids := DistinctUserIds(init);
      assert forall q :: q in rows <==> q in init || q == last;
      assert UsersOf(rows) == UsersOf(init) + {last.fields.userId};
      if last.fields.userId in ids then ids else ids + [last.fields.userId]
  }

  /** Only an empty table has no users. */
  lemma NoUsersNoRows(rows: seq<Request>)
    ensures DistinctUserIds(rows) == [] <==> rows == []
  {
    if rows != [] {
      assert rows[0].fields.userId in UsersOf(rows);
    }
  }

  lemma DistinctCount(rows: seq<Request>)
    ensures |DistinctUserIds(rows)| <= |rows|
  {
    DistinctIsUsers(rows);
    UsersCardinality(rows);
  }

  /** The distinct ids count the users who filed a request, each once. */
  lemma DistinctIsUsers(rows: seq<Request>)
    ensures |DistinctUserIds(rows)| == |UsersOf(rows)|
  {
    var ids := DistinctUserIds(rows);
    DistinctCardinality(ids);
    assert (set u | u in ids) == UsersOf(rows);
  }

  lemma {:induction false} DistinctCardinality(ids: seq<int>)
    requires NoDuplicates(ids)
    ensures |set u | u in ids| == |ids|
  {
    if ids != [] {
      var init := ids[..|ids| - 1];
      assert NoDuplicates(init) by {
        forall i, j | 0 <= i < j < |init| ensures init[i] != init[j] {
          assert init[i] == ids[i] && init[j] == ids[j];
        }
      }
      DistinctCardinality(init);
      assert (set u | u in ids) == (set u | u in init) + {ids[|ids| - 1]};
      assert ids[|ids| - 1] !in init;
    }
  }

  lemma {:induction false} UsersCardinality(rows: seq<Request>)
    ensures |UsersOf(rows)| <= |rows|
  {
    if rows != [] {
      var init := rows[..|rows| - 1];
      assert forall q :: q in rows <==> q in init || q == rows[|rows| - 1];
      assert UsersOf(rows) == UsersOf(init) + {rows[|rows| - 1].fields.userId};
      UsersCardinality(init);
    }
  }

  /** `/broadcast`: the sender enters broadcast mode; stored data is kept. */
  method CmdBroadcast(ctx: FsmContext)
    modifies ctx
    ensures ctx.state == Some(BroadcastWaiting) && ctx.data == old(ctx.data)
  {
    ctx.SetState(Some(BroadcastWaiting));
  }

  /** The number of users for whom `copy_message` succeeds. */
  function CountDelivered(ids: seq<int>, delivers: int -> bool): (n: nat)
    ensures n <= |ids|
  {
    if ids == [] then 0 else CountDelivered(ids[..|ids| - 1], delivers) + (if delivers(ids[|ids| - 1]) then 1 else 0)
  }

  /** The send loop: every user attempted once, in order; a failure is counted and the loop goes
      on. `delivers` says which sends succeed. */
  method Tally(ids: seq<int>, delivers: int -> bool) returns (attempted: seq<int>, success: nat, failed: nat)
    ensures attempted == ids
    ensures success == CountDelivered(ids, delivers)
    ensures success + failed == |ids|
  {
    attempted, success, failed := [], 0, 0;
    var k := 0;
    while k < |ids|
      invariant 0 <= k <= |ids|
      invariant attempted == ids[..k]
      invariant success == CountDelivered(ids[..k], delivers)
      invariant success + failed == k
    {
      assert ids[..k + 1][..k] == ids[..k];
      if delivers(ids[k]) {
        success := success + 1;
      } else {
        failed := failed + 1;
      }
      attempted := attempted + [ids[k]];
      k := k + 1;
    }
    assert ids[..k] == ids;
  }

  datatype BroadcastOutcome = Cancelled | NoRecipients | Sent(success: nat, failed: nat)

  /** The message sent in broadcast mode: `/cancel` (a text starting with it) stops with no send; an
      empty table stops with no send; otherwise the message is copied to every distinct user.
      Broadcast mode ends in every case. */
  method ProcessBroadcast(ctx: FsmContext, text: Option<string>, rows: seq<Request>, delivers: int -> bool)
    returns (outcome: BroadcastOutcome, attempted: seq<int>)
    modifies ctx
    ensures ctx.state == None && ctx.data == map[]
    ensures text.Some? && StartsWith(text.value, "/cancel") ==> outcome == Cancelled && attempted == []
    ensures !(text.Some? && StartsWith(text.value, "/cancel")) && rows == [] ==> outcome == NoRecipients && attempted == []
    ensures !(text.Some? && StartsWith(text.value, "/cancel")) && rows != [] ==>
      && attempted == DistinctUserIds(rows) && NoDuplicates(attempted)
      && outcome == Sent(CountDelivered(attempted, delivers), |attempted| - CountDelivered(attempted, delivers))
  {
    if text.Some? && StartsWith(text.value, "/cancel") {
      ctx.Clear();
      return Cancelled, [];
    }
    var ids := DistinctUserIds(rows);
    if ids == [] {
      NoUsersNoRows(rows);
      ctx.Clear();
      return NoRecipients, [];
    }
    assert rows != [];
    var success, failed;
    attempted, success, failed := Tally(ids, delivers);
    outcome := Sent(success, failed);
    ctx.Clear();
  }
}
