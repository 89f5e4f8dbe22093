/**
 * The MCP tool layer of tally_mcp.py: which request each tool sends, the
 * cache key it uses, the text its `format` closure produces, the
 * live-or-cache gate that wraps every tool, and the status report.
 *
 * The Tally HTTP transport is a function from request to outcome, the XML
 * parser a function from (cleaned) text to an element tree or nothing, and
 * `_fmt_currency` a function from amount to text; all three are parameters.
 */
module Server {
  import opened Wrappers
  import opened Text
  import opened XmlTree
  import opened Sanitizer
  import opened Parsers
  import opened Vouchers
  import opened Formatters
  import opened Snapshots
  import Seqs

  /** The ten tools that go through the gate; `get_tally_status` is `TallyServer.Status`. */
  datatype Tool =
    | GetAllLedgers
    | GetAccountGroups
    | GetStockItems
    | GetTrialBalance
    | GetProfitAndLoss
    | GetBalanceSheet
    | GetSundryDebtors
    | GetSundryCreditors
    | SearchLedger(partial: string)
    | GetTransactionsForDate(date: string)
    | GetTransactionsForPeriod(from: string, to: string)
  {
    /** The tools whose `format` parses ledgers, and so can fail on a balance `float` rejects. */
    predicate UsesLedgers() {
      GetAllLedgers? || GetSundryDebtors? || GetSundryCreditors? || SearchLedger?
    }
  }

  /** A collection export (`tally_collection`) or a report export (`tally_report`) with its date variables. */
  datatype Request = Collection(id: string) | Report(name: string, dateVars: string)

  /** What the transport does with a request: raise, or return the response text. */
  datatype Fetch = Raised | Returned(raw: string)

  /** The date variables of `tally_report`: present only when both dates are non-empty. */
  function DateVars(from: string, to: string): (r: string)
    ensures r == "" <==> from == "" || to == ""
    ensures r != "" ==> StartsWith(r, "<SVFROMDATE>" + from + "</SVFROMDATE>")
  {
    if from != "" && to != "" then "<SVFROMDATE>" + from + "</SVFROMDATE>" + "<SVTODATE>" + to + "</SVTODATE>" else ""
  }

  function RequestFor(tool: Tool): Request {
    match tool
    case GetAllLedgers => Collection("Ledger")
    case GetAccountGroups => Collection("Group")
    case GetStockItems => Collection("StockItem")
    case GetTrialBalance => Report("Trial Balance", DateVars("", ""))
    case GetProfitAndLoss => Report("Profit and Loss", DateVars("", ""))
    case GetBalanceSheet => Report("Balance Sheet", DateVars("", ""))
    case GetSundryDebtors => Collection("Ledger")
    case GetSundryCreditors => Collection("Ledger")
    case SearchLedger(_) => Collection("Ledger")
    case GetTransactionsForDate(date) => Report("Day Book", DateVars(date, date))
    case GetTransactionsForPeriod(from, to) => Report("Day Book", DateVars(from, to))
  }

  /**
   * The Day Book tools restrict the export to their dates only when every
   * date is given: with an empty date the request carries no date range.
   */
  lemma DayBookDates(date: string, from: string, to: string)
    ensures RequestFor(GetTransactionsForDate(date)).dateVars != "" <==> date != ""
    ensures RequestFor(GetTransactionsForPeriod(from, to)).dateVars != "" <==> from != "" && to != ""
    ensures RequestFor(GetTransactionsForDate(date)).name == "Day Book"
  {
  }

  function CacheKey(tool: Tool): string {
    match tool
    case GetAllLedgers => "ledgers"
    case GetAccountGroups => "groups"
    case GetStockItems => "stock_items"
    case GetTrialBalance => "trial_balance"
    case GetProfitAndLoss => "pnl"
    case GetBalanceSheet => "balance_sheet"
    case GetSundryDebtors => "debtors"
    case GetSundryCreditors => "creditors"
    case SearchLedger(partial) => "search_" + Lower(partial)
    case GetTransactionsForDate(date) => "txn_" + date
    case GetTransactionsForPeriod(from, to) => "txn_" + from + "_" + to
  }

  /**
   * Searches that differ only in letter case share one cache entry, and
   * they select the same ledgers.
   */
  lemma SearchKeyIgnoresCase(p: string, q: string, ledgers: seq<Ledger>)
    requires Lower(p) == Lower(q)
    ensures CacheKey(SearchLedger(p)) == CacheKey(SearchLedger(q))
    ensures Matching(ledgers, p) == Matching(ledgers, q)
  {
  }

  /** `_parse_ledgers` as one value: nothing when some named ledger's balance does not parse. */
  function LedgerList(root: Element): Option<seq<Ledger>> {
    if BalancesParse(Iter(root, "LEDGER")) then Some(LedgerRecords(Iter(root, "LEDGER"))) else None
  }

  function OnLedgers(root: Element, render: seq<Ledger> -> string): Option<string> {
    match LedgerList(root)
    case None => None
    case Some(ledgers) => Some(render(ledgers))
  }

  function DayBook(root: Element): seq<Voucher> {
    Seqs.Map(Iter(root, "VOUCHER"), VoucherOf)
  }

  /** What the tool's `format` closure returns for a parsed response, or nothing when it raises. */
  function Rendered(tool: Tool, root: Element, cur: real -> string): Option<string> {
    match tool
    case GetAllLedgers => OnLedgers(root, (ls: seq<Ledger>) => LedgersText(ls, cur))
    case GetAccountGroups => Some(FormatNames(Groups(root), "No groups found."))
    case GetStockItems => Some(FormatNames(StockItems(root), "No stock items found."))
    case GetTrialBalance => Some(ReportText(DisplayRows(root, "trial_balance"), "Empty trial balance."))
    case GetProfitAndLoss => Some(ReportText(DisplayRows(root, "pnl"), "Empty P&L."))
    case GetBalanceSheet => Some(ReportText(DisplayRows(root, "balance_sheet"), "Empty balance sheet."))
    case GetSundryDebtors =>
      OnLedgers(root, (ls: seq<Ledger>) => OutstandingText(ls, "Sundry Debtors", "RECEIVABLES (customers who owe us):\n",
                                                         "Total Receivable: ", "No sundry debtors found.", cur))
    case GetSundryCreditors =>
      OnLedgers(root, (ls: seq<Ledger>) => OutstandingText(ls, "Sundry Creditors", "PAYABLES (we owe them):\n",
                                                         "Total Payable: ", "No sundry creditors found.", cur))
    case SearchLedger(partial) => OnLedgers(root, (ls: seq<Ledger>) => SearchText(ls, partial, cur))
    case GetTransactionsForDate(date) => Some(DayText(DayBook(root), date, cur))
    case GetTransactionsForPeriod(from, to) => Some(PeriodText(DayBook(root), from, to, cur))
  }

  /**
   * Once the response parses as XML, only the ledger tools can fail, and
   * they all fail together: exactly when a named ledger's balance does not parse.
   */
  lemma RenderFailures(tool: Tool, root: Element, cur: real -> string)
    ensures Rendered(tool, root, cur).None? <==> tool.UsesLedgers() && !BalancesParse(Iter(root, "LEDGER"))
  {
  }

  /** The `format` closure of each tool, running the parser and formatter loops. */
  method Format(tool: Tool, root: Element, cur: real -> string) returns (r: Option<string>)
    ensures r == Rendered(tool, root, cur)
  {
    match tool {
      case GetAccountGroups =>
        r := Some(FormatNames(Groups(root), "No groups found."));
      case GetStockItems =>
        r := Some(FormatNames(StockItems(root), "No stock items found."));
      case GetTrialBalance =>
        var rows := ParseDisplayReport(root, "trial_balance");
        var text := FormatReport(rows, "Empty trial balance.");
        r := Some(text);
      case GetProfitAndLoss =>
        var rows := ParseDisplayReport(root, "pnl");
        var text := FormatReport(rows, "Empty P&L.");
        r := Some(text);
      case GetBalanceSheet =>
        var rows := ParseDisplayReport(root, "balance_sheet");
        var text := FormatReport(rows, "Empty balance sheet.");
        r := Some(text);
      case GetTransactionsForDate(date) =>
        var vs := ParseVouchers(root);
        var text := FormatDay(vs, date, cur);
        r := Some(text);
      case GetTransactionsForPeriod(from, to) =>
        var vs := ParseVouchers(root);
        var text := FormatPeriod(vs, from, to, cur);
        r := Some(text);
      case _ =>
        r := FormatLedgerTool(tool, root, cur);
    }
  }

  method FormatLedgerTool(tool: Tool, root: Element, cur: real -> string) returns (r: Option<string>)
    requires tool.UsesLedgers()
    ensures r == Rendered(tool, root, cur)
  {
    var parsed := ParseLedgers(root);
    if parsed.None? {
      return None;
    }
    var ledgers := parsed.value;
    var text;
    match tool {
      case GetAllLedgers =>
        text := FormatLedgers(ledgers, cur);
      case GetSundryDebtors =>
        text := FormatOutstanding(ledgers, "Sundry Debtors", "RECEIVABLES (customers who owe us):\n",
                                  "Total Receivable: ", "No sundry debtors found.", cur);
      case GetSundryCreditors =>
        text := FormatOutstanding(ledgers, "Sundry Creditors", "PAYABLES (we owe them):\n",
                                  "Total Payable: ", "No sundry creditors found.", cur);
      case SearchLedger(partial) =>
        text := FormatSearch(ledgers, partial, cur);
    }
    r := Some(text);
  }

  /**
   * The `try` block of `_live_or_cache`: the formatted text, or nothing when
   * the fetch raises, the response holds `<ERROR>`, the cleaned text is not
   * XML, or `format` raises.
   */
  function Attempt(tool: Tool, fetched: Fetch, xml: string -> Option<Element>, cur: real -> string): Option<string> {
    match fetched
    case Raised => None
    case Returned(raw) =>
      if Contains(raw, "<ERROR>") then None
      else
        match xml(CleanXml(raw))
        case None => None
        case Some(root) => Rendered(tool, root, cur)
  }

  const OfflineBanner := "⚠️ Tally is offline. Showing cached data from "
  const Rule := "─────────────────────────────\n"
  const NoCache := "❌ Tally is offline and no cached data available for this query."

  /**
   * The reply of the `except` branch, from what `load` and `age_str` do
   * there. An exception out of either escapes the gate, since nothing
   * around the `except` branch catches it.
   */
  function OfflineReply(cached: Completion<Option<Snapshot>>, age: Completion<string>): Completion<string> {
    match cached
    case Raises => Raises
    case Returns(None) => Returns(NoCache)
    case Returns(Some(s)) =>
      match age
      case Raises => Raises
      case Returns(a) => Returns(OfflineBanner + a + ":\n" + Rule + s.data)
  }

  /** An offline reply with a snapshot ends with exactly the text that was saved. */
  lemma OfflineReplyEndsWithData(s: Snapshot, age: string)
    ensures OfflineReply(Returns(Some(s)), Returns(age)).Returns?
    ensures var r := OfflineReply(Returns(Some(s)), Returns(age)).value; |s.data| <= |r| && r[|r| - |s.data|..] == s.data
    ensures StartsWith(OfflineReply(Returns(Some(s)), Returns(age)).value, OfflineBanner)
  {
    var r := OfflineReply(Returns(Some(s)), Returns(age)).value;
    var head := OfflineBanner + age + ":\n" + Rule;
    assert r == head + s.data;
  }

  /** The `except` branch raises exactly when the file under `key` is not UTF-8. */
  lemma OfflineRaises(store: SnapshotStore, key: string, now: int)
    ensures OfflineReply(store.Load(key), store.AgeStr(key, now)).Raises?
            <==> key in store.files && store.files[key].Undecodable?
  {
  }

  /** The label and cache key of each line of the status report. */
  const AgeKeys: seq<(string, string)> :=
    [("Ledgers", "ledgers"), ("Trial Balance", "trial_balance"), ("P&L", "pnl"),
     ("Balance Sheet", "balance_sheet"), ("Debtors", "debtors"), ("Creditors", "creditors")]

  /** The status line for the outcome of the `Group` collection ping. */
  function PingLine(ping: Fetch): string {
    match ping
    case Raised => "🔴 Tally is OFFLINE"
    case Returned(raw) => if !Contains(raw, "<ERROR>") then "🟢 Tally is ONLINE and responding" else "🔴 Tally returned an error"
  }

  /** A report whose lines hold no line break splits back into those lines. */
  lemma ReportSplits(parts: seq<string>, head: string, ages: seq<string>)
    requires parts == [head, "", "Cached data ages:"] + ages
    requires '\n' !in head
    requires forall i :: 0 <= i < |ages| ==> '\n' !in ages[i]
    ensures Split(Join(parts, "\n"), '\n') == parts
  {
    assert '\n' !in parts[2];
    forall i | 0 <= i < |parts| ensures '\n' !in parts[i] {
      if i >= 3 {
        assert parts[i] == ages[i - 3];
      }
    }
    SplitJoin(parts, '\n');
  }

  /** The MCP server's state: the connection flag and the snapshot store. */
  class TallyServer {
    /** `_tally_is_alive`: unknown until the first gated call. */
    var alive: Option<bool>
    const store: SnapshotStore

    constructor(store: SnapshotStore)
      ensures this.store == store && alive == None
    {
      this.store := store;
      alive := None;
    }

    /**
     * A gated tool call at time `now`, with `disk` saying how saving the
     * snapshot goes. When the live text is produced and saved, the flag is
     * set and the text returned. When fetching or formatting fails, the flag
     * is cleared, the store is left alone and the reply is the offline reply
     * for the store as it was. When the save raises, the flag is cleared and
     * the offline reply is built from the store as the failed save left it.
     */
    method LiveOrCache(tool: Tool, transport: Request -> Fetch, xml: string -> Option<Element>,
                       cur: real -> string, disk: Disk, now: int) returns (reply: Completion<string>)
      modifies this, store
      ensures var result := Attempt(tool, transport(RequestFor(tool)), xml, cur);
        result.Some? && disk.Writes? ==>
          reply == Returns(result.value) && alive == Some(true)
          && store.files == old(store.files)[CacheKey(tool) := Record(Snapshot(result.value, now))]
      ensures var result := Attempt(tool, transport(RequestFor(tool)), xml, cur);
        result.None? ==>
          alive == Some(false) && store.files == old(store.files)
          && reply == OfflineReply(old(store.Load(CacheKey(tool))), old(store.AgeStr(CacheKey(tool), now)))
      ensures var result := Attempt(tool, transport(RequestFor(tool)), xml, cur);
        result.Some? && !disk.Writes? ==>
          alive == Some(false)
          && store.files == SavedFiles(old(store.files), CacheKey(tool), Snapshot(result.value, now), disk)
          && reply == OfflineReply(store.Load(CacheKey(tool)), store.AgeStr(CacheKey(tool), now))
    {
      var key := CacheKey(tool);
      var result := Live(tool, transport, xml, cur);
      if result.Some? {
        var saved := store.Save(key, result.value, now, disk);
        if saved.Returns? {
          alive := Some(true);
          return Returns(result.value);
        }
      }
      reply := Offline(key, now);
    }

    /** The body of the gate's `try` up to the save: fetch, reject `<ERROR>`, parse and format. */
    method Live(tool: Tool, transport: Request -> Fetch, xml: string -> Option<Element>, cur: real -> string)
      returns (result: Option<string>)
      ensures result == Attempt(tool, transport(RequestFor(tool)), xml, cur)
    {
      var fetched := transport(RequestFor(tool));
      result := None;
      if fetched.Returned? && !Contains(fetched.raw, "<ERROR>") {
        var root := xml(CleanXml(fetched.raw));
        if root.Some? {
          result := Format(tool, root.value, cur);
        }
      }
    }

    /** The gate's `except` branch: clear the flag and answer from the cache. */
    method Offline(key: string, now: int) returns (reply: Completion<string>)
      modifies this
      ensures alive == Some(false)
      ensures reply == OfflineReply(store.Load(key), store.AgeStr(key, now))
    {
      alive := Some(false);
      reply := OfflineReply(store.Load(key), store.AgeStr(key, now));
    }

    /**
     * One `"  label: age"` line per entry of `keys`, in order; `age_str`
     * raising for any entry makes the whole report raise.
     */
    function AgeLines(keys: seq<(string, string)>, now: int): (r: Completion<seq<string>>)
      reads store
      ensures r.Raises? <==> exists i :: 0 <= i < |keys| && store.AgeStr(keys[i].1, now).Raises?
      ensures r.Returns? ==> |r.value| == |keys|
      ensures r.Returns? ==> forall i :: 0 <= i < |keys| ==> r.value[i] == "  " + keys[i].0 + ": " + store.AgeStr(keys[i].1, now).value
    {
      if keys == [] then Returns([])
      else
        var prior := AgeLines(keys[..|keys| - 1], now);
        var last := keys[|keys| - 1];
        var age := store.AgeStr(last.1, now);
        assert forall i :: 0 <= i < |keys| - 1 ==> keys[..|keys| - 1][i] == keys[i];
        if prior.Raises? || age.Raises? then Raises
        else Returns(prior.value + ["  " + last.0 + ": " + age.value])
    }

    /**
     * The lines of the status report: the ping line, a blank line, the
     * heading, one age line per report.
     */
    function StatusParts(ping: Fetch, now: int): (r: Completion<seq<string>>)
      reads store
      ensures r.Raises? <==> AgeLines(AgeKeys, now).Raises?
      ensures r.Returns? ==> |r.value| == 9 && r.value[0] == PingLine(ping)
    {
      match AgeLines(AgeKeys, now)
      case Raises => Raises
      case Returns(ages) => Returns([PingLine(ping), "", "Cached data ages:"] + ages)
    }

    /** `get_tally_status` for the ping outcome `ping` at time `now`. */
    method Status(ping: Fetch, now: int) returns (text: Completion<string>)
      ensures StatusParts(ping, now).Raises? ==> text.Raises?
      ensures StatusParts(ping, now).Returns? ==> text == Returns(Join(StatusParts(ping, now).value, "\n"))
    {
      var lines := [PingLine(ping), "", "Cached data ages:"];
      var i := 0;
      while i < |AgeKeys|
        invariant 0 <= i <= |AgeKeys|
        invariant AgeLines(AgeKeys[..i], now).Returns?
        invariant lines == [PingLine(ping), "", "Cached data ages:"] + AgeLines(AgeKeys[..i], now).value
      {
        var title, key := AgeKeys[i].0, AgeKeys[i].1;
        assert AgeKeys[..i + 1][..i] == AgeKeys[..i];
        var age := store.AgeStr(key, now);
        if age.Raises? {
          assert store.AgeStr(AgeKeys[i].1, now).Raises?;
          return Raises;
        }
        lines := lines + ["  " + title + ": " + age.value];
        i := i + 1;
      }
      assert AgeKeys[..i] == AgeKeys;
      text := Returns(Join(lines, "\n"));
    }

    /** The status report raises exactly when one of the six report files is not UTF-8. */
    lemma StatusRaises(ping: Fetch, now: int)
      ensures StatusParts(ping, now).Raises?
              <==> exists i :: 0 <= i < |AgeKeys| && AgeKeys[i].1 in store.files && store.files[AgeKeys[i].1].Undecodable?
    {
    }

    /** The status report reads back as exactly its nine lines: no age spills onto a second line. */
    lemma StatusLines(ping: Fetch, now: int)
      ensures StatusParts(ping, now).Returns? ==>
                Split(Join(StatusParts(ping, now).value, "\n"), '\n') == StatusParts(ping, now).value
    {
      var lines := AgeLines(AgeKeys, now);
      if lines.Returns? {
        var ages := lines.value;
        PingLineNoBreak(ping);
        forall i | 0 <= i < |ages| ensures '\n' !in ages[i] {
          AgeLineNoBreak(AgeKeys[i].0, AgeKeys[i].1, now);
        }
        ReportSplits(StatusParts(ping, now).value, PingLine(ping), ages);
      }
    }

    lemma PingLineNoBreak(ping: Fetch)
      ensures '\n' !in PingLine(ping)
    {
    }

    lemma AgeLineNoBreak(title: string, key: string, now: int)
      requires '\n' !in title
      requires store.AgeStr(key, now).Returns?
      ensures '\n' !in "  " + title + ": " + store.AgeStr(key, now).value
    {
      AgeStrNoBreak(key, now);
      var t := "  " + title + ": " + store.AgeStr(key, now).value;
      forall i | 0 <= i < |t| ensures t[i] != '\n' {
        if i < 2 + |title| + 2 {
          assert t[i] == ("  " + title + ": ")[i];
        } else {
          assert t[i] == store.AgeStr(key, now).value[i - (4 + |title|)];
        }
      }
    }

    lemma AgeStrNoBreak(key: string, now: int)
      requires store.AgeStr(key, now).Returns?
      ensures '\n' !in store.AgeStr(key, now).value
    {
      if store.Load(key).Returns? && store.Load(key).value.Some? {
        AgeTextNoBreak(now - store.Load(key).value.value.savedAt);
      }
    }
  }
}
