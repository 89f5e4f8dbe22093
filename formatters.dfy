/**
 * The `format` closures of the tally_mcp.py tools: each turns parsed records
 * into the text the tool returns. `cur` stands for `_fmt_currency`.
 */
module Formatters {
  import opened Text
  import opened Parsers
  import opened Vouchers
  import Seqs

  /** The loop `for x in xs: lines.append(line(x))`. */
  method RenderLines<T>(xs: seq<T>, line: T -> string) returns (lines: seq<string>)
    ensures lines == Seqs.Map(xs, line)
  {
    lines := [];
    var i := 0;
    while i < |xs|
      invariant 0 <= i <= |xs|
      invariant lines == Seqs.Map(xs[..i], line)
    {
      assert xs[..i + 1] == xs[..i] + [xs[i]];
      Seqs.MapAppend(xs[..i], [xs[i]], line);
      lines := lines + [line(xs[i])];
      i := i + 1;
    }
    assert xs[..i] == xs;
  }

  /**
   * Lines free of line breaks, joined with "\n", split back into exactly
   * those lines: a tool's text has one line per rendered item, in order.
   */
  lemma ReadBackLines(lines: seq<string>)
    requires |lines| >= 1
    requires forall i :: 0 <= i < |lines| ==> '\n' !in lines[i]
    ensures Split(Join(lines, "\n"), '\n') == lines
  {
    SplitJoin(lines, '\n');
  }

  // ---------------------------------------------------------------- ledgers

  function LedgerLine(l: Ledger, cur: real -> string): string {
    l.name + " | Group: " + l.group + " | Balance: " + (if l.balance != 0.0 then cur(l.balance) else "0")
  }

  function LedgerLines(cur: real -> string): Ledger -> string {
    (l: Ledger) => LedgerLine(l, cur)
  }

  /** `get_all_ledgers`: one line per ledger, or the fixed message when there are none. */
  function LedgersText(ledgers: seq<Ledger>, cur: real -> string): string {
    if ledgers == [] then "No ledgers found." else Join(Seqs.Map(ledgers, LedgerLines(cur)), "\n")
  }

  method FormatLedgers(ledgers: seq<Ledger>, cur: real -> string) returns (text: string)
    ensures text == LedgersText(ledgers, cur)
  {
    if ledgers == [] {
      return "No ledgers found.";
    }
    var lines := RenderLines(ledgers, LedgerLines(cur));
    text := Join(lines, "\n");
  }

  /** `get_account_groups` and `get_stock_items`: the names one per line, or the fixed message. */
  function FormatNames(names: seq<string>, none: string): string {
    if names == [] then none else Join(names, "\n")
  }

  // ------------------------------------------------------- display reports

  /** `"name: Dr d Cr c"`, leaving out an empty debit or credit. */
  function TrialLine(name: string, debit: string, credit: string): string {
    Join([name + ":"] + (if debit != "" then ["Dr " + debit] else []) + (if credit != "" then ["Cr " + credit] else []), " ")
  }

  /** A trial-balance row or a P&L / balance-sheet row; an amount "0" shows as "-". */
  function RowLine(r: ReportRow): string {
    match r
    case TrialRow(name, debit, credit) => TrialLine(name, debit, credit)
    case AmountRow(name, amount) => name + ": " + (if amount != "0" then amount else "-")
  }

  /** `get_trial_balance`, `get_profit_and_loss` and `get_balance_sheet`. */
  function ReportText(rows: seq<ReportRow>, empty: string): string {
    if rows == [] then empty else Join(Seqs.Map(rows, RowLine), "\n")
  }

  method FormatReport(rows: seq<ReportRow>, empty: string) returns (text: string)
    ensures text == ReportText(rows, empty)
  {
    if rows == [] {
      return empty;
    }
    var lines := RenderLines(rows, RowLine);
    text := Join(lines, "\n");
  }

  // ------------------------------------------------ receivables / payables

  function Magnitude(l: Ledger): real {
    Abs(l.balance)
  }

  /** `[l for l in ledgers if l["group"] == group]` */
  function InGroup(ledgers: seq<Ledger>, group: string): seq<Ledger> {
    Seqs.Filter(ledgers, (l: Ledger) => l.group == group)
  }

  /**
   * The ledgers of the group, stable-sorted by non-increasing magnitude of
   * the balance: exactly the group's ledgers, each as often as in the input.
   */
  function Outstanding(ledgers: seq<Ledger>, group: string): (r: seq<Ledger>)
    ensures multiset(r) == multiset(InGroup(ledgers, group))
    ensures Seqs.SortedDesc(r, Magnitude)
  {
    Seqs.SortDesc(InGroup(ledgers, group), Magnitude)
  }

  /**
   * The listing holds exactly the ledgers of the group, ledgers of equal
   * magnitude keep their order, and its total is the sum of all magnitudes.
   */
  lemma OutstandingSelection(ledgers: seq<Ledger>, group: string)
    ensures forall l :: l in Outstanding(ledgers, group) <==> l in ledgers && l.group == group
    ensures forall k :: Seqs.WithKey(Outstanding(ledgers, group), Magnitude, k) == Seqs.WithKey(InGroup(ledgers, group), Magnitude, k)
    ensures Seqs.SumOver(Outstanding(ledgers, group), Magnitude) == Seqs.SumOver(InGroup(ledgers, group), Magnitude)
  {
    var members := InGroup(ledgers, group);
    forall l ensures l in Outstanding(ledgers, group) <==> l in members {
      assert l in multiset(Outstanding(ledgers, group)) <==> l in multiset(members);
    }
    forall k ensures Seqs.WithKey(Outstanding(ledgers, group), Magnitude, k) == Seqs.WithKey(members, Magnitude, k) {
      Seqs.SortStable(members, Magnitude, k);
    }
    Seqs.SortSum(members, Magnitude, Magnitude);
  }

  function OutstandingLine(cur: real -> string): Ledger -> string {
    (l: Ledger) => "  " + l.name + ": " + cur(Magnitude(l))
  }

  /**
   * `get_sundry_debtors` / `get_sundry_creditors`: the header, one line per
   * ledger of the group in `Outstanding` order, and the total of their
   * magnitudes; the fixed message when the group has no ledger.
   */
  function OutstandingText(ledgers: seq<Ledger>, group: string, header: string, totalLabel: string,
                           none: string, cur: real -> string): string {
    if InGroup(ledgers, group) == [] then none
    else Join([header] + Seqs.Map(Outstanding(ledgers, group), OutstandingLine(cur))
              + ["\n" + totalLabel + cur(Seqs.SumOver(InGroup(ledgers, group), Magnitude))], "\n")
  }

  /** The loop that sorts, renders and totals the group's ledgers. */
  method FormatOutstanding(ledgers: seq<Ledger>, group: string, header: string, totalLabel: string,
                           none: string, cur: real -> string) returns (text: string)
    ensures text == OutstandingText(ledgers, group, header, totalLabel, none, cur)
  {
    var members := InGroup(ledgers, group);
    if members == [] {
      return none;
    }
    var sorted := Seqs.SortDesc(members, Magnitude);
    var lines := [header];
    var total := 0.0;
    var i := 0;
    while i < |sorted|
      invariant 0 <= i <= |sorted|
      invariant total == Seqs.SumOver(sorted[..i], Magnitude)
      invariant lines == [header] + Seqs.Map(sorted[..i], OutstandingLine(cur))
    {
      OutstandingStep(sorted, i, cur);
      var amt := Abs(sorted[i].balance);
      total := total + amt;
      lines := lines + ["  " + sorted[i].name + ": " + cur(amt)];
      i := i + 1;
    }
    assert sorted[..i] == sorted;
    Seqs.SortSum(members, Magnitude, Magnitude);
    lines := lines + ["\n" + totalLabel + cur(total)];
    text := Join(lines, "\n");
  }

  lemma OutstandingStep(sorted: seq<Ledger>, i: nat, cur: real -> string)
    requires i < |sorted|
    ensures Seqs.SumOver(sorted[..i + 1], Magnitude) == Seqs.SumOver(sorted[..i], Magnitude) + Magnitude(sorted[i])
    ensures Seqs.Map(sorted[..i + 1], OutstandingLine(cur)) == Seqs.Map(sorted[..i], OutstandingLine(cur)) + [OutstandingLine(cur)(sorted[i])]
  {
    assert sorted[..i + 1] == sorted[..i] + [sorted[i]];
    Seqs.SumAppend(sorted[..i], [sorted[i]], Magnitude);
    Seqs.MapAppend(sorted[..i], [sorted[i]], OutstandingLine(cur));
  }

  // ----------------------------------------------------------------- search

  /** The ledgers whose lower-cased name contains the lower-cased query. */
  function Matching(ledgers: seq<Ledger>, partial: string): seq<Ledger> {
    Seqs.Filter(ledgers, (l: Ledger) => Contains(Lower(l.name), Lower(partial)))
  }

  /** A search finds exactly the ledgers whose name contains the query, ignoring case, in ledger order. */
  lemma SearchMatches(ledgers: seq<Ledger>, partial: string)
    ensures forall l :: l in Matching(ledgers, partial) <==> l in ledgers && Contains(Lower(l.name), Lower(partial))
    ensures Seqs.IsSubsequence(Matching(ledgers, partial), ledgers)
  {
    Seqs.FilterIsSubsequence(ledgers, (l: Ledger) => Contains(Lower(l.name), Lower(partial)));
  }

  function LedgerName(l: Ledger): string {
    l.name
  }

  /** `search_ledger`: the matching ledgers one per line, or the list of all names when none matches. */
  function SearchText(ledgers: seq<Ledger>, partial: string, cur: real -> string): string {
    if Matching(ledgers, partial) == [] then "No match for '" + partial + "'. Available: " + Join(Seqs.Map(ledgers, LedgerName), ", ")
    else Join(Seqs.Map(Matching(ledgers, partial), LedgerLines(cur)), "\n")
  }

  method FormatSearch(ledgers: seq<Ledger>, partial: string, cur: real -> string) returns (text: string)
    ensures text == SearchText(ledgers, partial, cur)
  {
    var matches := Matching(ledgers, partial);
    if matches == [] {
      var allNames := RenderLines(ledgers, LedgerName);
      return "No match for '" + partial + "'. Available: " + Join(allNames, ", ");
    }
    var lines := RenderLines(matches, LedgerLines(cur));
    text := Join(lines, "\n");
  }

  // ------------------------------------------------------------ day book

  function PartyOrDash(party: string): string {
    if party != "" then party else "-"
  }

  function DayLine(cur: real -> string): Voucher -> string {
    (v: Voucher) => "  " + v.vtype + " | " + PartyOrDash(v.party) + " | " + cur(v.amount)
                    + (if v.narration != "" then " | " + v.narration else "")
  }

  /** `get_transactions_for_date`: a header with the count, then one line per voucher. */
  function DayText(vs: seq<Voucher>, date: string, cur: real -> string): string {
    if vs == [] then "No transactions on " + date + "."
    else Join(["Transactions on " + date + ": (" + NatToDecimal(|vs|) + " vouchers)\n"] + Seqs.Map(vs, DayLine(cur)), "\n")
  }

  method FormatDay(vs: seq<Voucher>, date: string, cur: real -> string) returns (text: string)
    ensures text == DayText(vs, date, cur)
  {
    if vs == [] {
      return "No transactions on " + date + ".";
    }
    var lines := RenderLines(vs, DayLine(cur));
    text := Join(["Transactions on " + date + ": (" + NatToDecimal(|vs|) + " vouchers)\n"] + lines, "\n");
  }

  // ------------------------------------------------------- period summary

  function Last<T>(s: seq<T>): T
    requires s != []
  {
    s[|s| - 1]
  }

  function Init<T>(s: seq<T>): seq<T>
    requires s != []
  {
    s[..|s| - 1]
  }

  /**
   * The voucher types in the order they first occur (the key order of the
   * `Counter`): no type twice, and exactly the types of the vouchers.
   */
  function Types(vs: seq<Voucher>): (r: seq<string>)
    ensures Seqs.Distinct(r)
    ensures forall t :: t in r <==> exists i :: 0 <= i < |vs| && vs[i].vtype == t
  {
    if vs == [] then []
    else
      var prior := Types(Init(vs));
      assert forall i :: 0 <= i < |Init(vs)| ==> Init(vs)[i] == vs[i];
      if Last(vs).vtype in prior then prior else prior + [Last(vs).vtype]
  }

  /** `by_type[t]` after the loop: how many vouchers have type `t`. */
  function CountOf(vs: seq<Voucher>, t: string): nat {
    if vs == [] then 0 else CountOf(Init(vs), t) + (if Last(vs).vtype == t then 1 else 0)
  }

  /** `amounts_by_type[t]` after the loop: the sum of the amounts of type `t`. */
  function AmountOf(vs: seq<Voucher>, t: string): real {
    if vs == [] then 0.0 else AmountOf(Init(vs), t) + (if Last(vs).vtype == t then Last(vs).amount else 0.0)
  }

  lemma {:induction false} CountOfAbsent(vs: seq<Voucher>, t: string)
    requires t !in Types(vs)
    ensures CountOf(vs, t) == 0
  {
    if vs != [] {
      CountOfAbsent(Init(vs), t);
    }
  }

  /** Counting a type: every voucher counts once, under its own type. */
  lemma {:induction false} CountsSum(vs: seq<Voucher>)
    ensures Seqs.SumOver(Types(vs), ByCount(vs)) == |vs| as real
  {
    if vs != [] {
      var prior, x := Init(vs), Last(vs).vtype;
      CountsSum(prior);
      Seqs.SumBump(Types(prior), ByCount(vs), ByCount(prior), x);
      if x !in Types(prior) {
        CountOfAbsent(prior, x);
        Seqs.SumAppend(Types(prior), [x], ByCount(vs));
      }
    }
  }

  function ByCount(vs: seq<Voucher>): string -> real {
    (t: string) => CountOf(vs, t) as real
  }

  /**
   * `Counter.most_common()`: the types by non-increasing count, types with
   * equal counts in first-seen order.
   */
  function MostCommon(vs: seq<Voucher>): (r: seq<string>)
    ensures multiset(r) == multiset(Types(vs))
    ensures Seqs.SortedDesc(r, ByCount(vs))
  {
    Seqs.SortDesc(Types(vs), ByCount(vs))
  }

  /** The per-type counts of the summary add up to the number of vouchers. */
  lemma MostCommonCountsSum(vs: seq<Voucher>)
    ensures Seqs.SumOver(MostCommon(vs), ByCount(vs)) == |vs| as real
    ensures forall k :: Seqs.WithKey(MostCommon(vs), ByCount(vs), k) == Seqs.WithKey(Types(vs), ByCount(vs), k)
  {
    CountsSum(vs);
    Seqs.SortSum(Types(vs), ByCount(vs), ByCount(vs));
    forall k ensures Seqs.WithKey(MostCommon(vs), ByCount(vs), k) == Seqs.WithKey(Types(vs), ByCount(vs), k) {
      Seqs.SortStable(Types(vs), ByCount(vs), k);
    }
  }

  /** One per-type line of the summary, from the tallies of all vouchers. */
  function TypeLine(vs: seq<Voucher>, cur: real -> string): string -> string {
    (t: string) => "  " + t + ": " + NatToDecimal(CountOf(vs, t)) + " vouchers, " + cur(AmountOf(vs, t))
  }

  /** The sort key `most_common()` reads from the `Counter` the loop filled. */
  function CountKey(counts: map<string, nat>): string -> real {
    (t: string) => if t in counts then counts[t] as real else 0.0
  }

  /** The same line as the loop writes it, reading the two dictionaries. */
  function TalliedLine(counts: map<string, nat>, amounts: map<string, real>, cur: real -> string): string -> string {
    (t: string) => "  " + t + ": " + NatToDecimal(if t in counts then counts[t] else 0) + " vouchers, "
                   + cur(if t in amounts then amounts[t] else 0.0)
  }

  function DetailLine(cur: real -> string): Voucher -> string {
    (v: Voucher) => "  " + v.date + " | " + v.vtype + " | " + PartyOrDash(v.party) + " | " + cur(v.amount)
  }

  function Min(a: nat, b: nat): nat {
    if a < b then a else b
  }

  /** The closing line, present only when some vouchers were not listed. */
  function MoreLine(n: nat): seq<string> {
    if n > 15 then ["  ... and " + NatToDecimal(n - 15) + " more"] else []
  }

  /** The dictionaries and key order after the tally loop has seen `vs`. */
  ghost predicate Tallied(vs: seq<Voucher>, order: seq<string>, counts: map<string, nat>, amounts: map<string, real>) {
    order == Types(vs) && Counted(vs, order, counts) && Summed(vs, order, amounts)
  }

  ghost predicate Counted(vs: seq<Voucher>, order: seq<string>, counts: map<string, nat>) {
    && (forall t :: t in counts <==> t in order)
    && (forall t :: t in counts ==> counts[t] == CountOf(vs, t))
  }

  ghost predicate Summed(vs: seq<Voucher>, order: seq<string>, amounts: map<string, real>) {
    && (forall t :: t in amounts <==> t in order)
    && (forall t :: t in amounts ==> amounts[t] == AmountOf(vs, t))
  }

  /** All lines of a non-empty period summary. */
  function PeriodLines(vs: seq<Voucher>, from: string, to: string, cur: real -> string): seq<string> {
    ["Period: " + from + " to " + to, "Total vouchers: " + NatToDecimal(|vs|) + "\n"]
    + Seqs.Map(MostCommon(vs), TypeLine(vs, cur))
    + ["\nFirst 15:"]
    + Seqs.Map(vs[..Min(15, |vs|)], DetailLine(cur))
    + MoreLine(|vs|)
  }

  /**
   * At most 15 detail lines; when there are more vouchers the last line says
   * how many were left out, otherwise the last line is the last voucher's.
   */
  lemma PeriodCap(vs: seq<Voucher>, from: string, to: string, cur: real -> string)
    requires vs != []
    ensures |PeriodLines(vs, from, to, cur)| == 3 + |Types(vs)| + Min(15, |vs|) + (if |vs| > 15 then 1 else 0)
    ensures |vs| > 15 ==> Last(PeriodLines(vs, from, to, cur)) == "  ... and " + NatToDecimal(|vs| - 15) + " more"
    ensures |vs| <= 15 ==> Last(PeriodLines(vs, from, to, cur)) == DetailLine(cur)(Last(vs))
  {
    assert |MostCommon(vs)| == |Types(vs)| by {
      assert |multiset(MostCommon(vs))| == |multiset(Types(vs))|;
    }
  }

  /**
   * The last line has a `|` exactly when it is a voucher's detail line, so
   * it is the closing "more" line exactly when there are over 15 vouchers.
   */
  lemma PeriodLastLine(vs: seq<Voucher>, from: string, to: string, cur: real -> string)
    requires vs != []
    ensures |vs| > 15 <==> '|' !in Last(PeriodLines(vs, from, to, cur))
  {
    PeriodCap(vs, from, to, cur);
    if |vs| > 15 {
      MoreLineNoBar(|vs| - 15);
    } else {
      var v := Last(vs);
      var t := DetailLine(cur)(v);
      assert t[2 + |v.date| + 1] == '|';
    }
  }

  lemma MoreLineNoBar(k: nat)
    ensures '|' !in "  ... and " + NatToDecimal(k) + " more"
  {
    var d := NatToDecimal(k);
    var t := "  ... and " + d + " more";
    forall i | 0 <= i < |t| ensures t[i] != '|' {
      if 10 <= i < 10 + |d| {
        assert t[i] == d[i - 10];
      }
    }
  }

  /** The `Counter` / `defaultdict` loop: the types in first-seen order and a count and amount per type. */
  method TallyByType(vs: seq<Voucher>) returns (order: seq<string>, counts: map<string, nat>, amounts: map<string, real>)
    ensures Tallied(vs, order, counts, amounts)
  {
    order, counts, amounts := [], map[], map[];
    var i := 0;
    while i < |vs|
      invariant 0 <= i <= |vs|
      invariant Tallied(vs[..i], order, counts, amounts)
    {
      var t := vs[i].vtype;
      var order', counts', amounts' := order, counts[t := (if t in counts then counts[t] else 0) + 1],
                                       amounts[t := (if t in amounts then amounts[t] else 0.0) + vs[i].amount];
      if t !in counts {
        order' := order + [t];
      }
      TallyStep(vs, i, order, counts, amounts, order', counts', amounts');
      order, counts, amounts := order', counts', amounts';
      i := i + 1;
    }
    assert vs[..i] == vs;
  }

  lemma TallyStep(vs: seq<Voucher>, i: nat, order: seq<string>, counts: map<string, nat>, amounts: map<string, real>,
                  order': seq<string>, counts': map<string, nat>, amounts': map<string, real>)
    requires i < |vs| && Tallied(vs[..i], order, counts, amounts)
    requires order' == if vs[i].vtype in counts then order else order + [vs[i].vtype]
    requires counts' == counts[vs[i].vtype := (if vs[i].vtype in counts then counts[vs[i].vtype] else 0) + 1]
    requires amounts' == amounts[vs[i].vtype := (if vs[i].vtype in amounts then amounts[vs[i].vtype] else 0.0) + vs[i].amount]
    ensures Tallied(vs[..i + 1], order', counts', amounts')
  {
    var v, p := vs[i], vs[..i];
    assert vs[..i + 1] == p + [v];
    TypesSnoc(p, v);
    CountStep(p, v, order, counts, order', counts');
    AmountStep(p, v, order, amounts, order', amounts');
  }

  lemma CountStep(p: seq<Voucher>, v: Voucher, order: seq<string>, counts: map<string, nat>,
                  order': seq<string>, counts': map<string, nat>)
    requires order == Types(p) && Counted(p, order, counts)
    requires order' == if v.vtype in order then order else order + [v.vtype]
    requires counts' == counts[v.vtype := (if v.vtype in counts then counts[v.vtype] else 0) + 1]
    ensures Counted(p + [v], order', counts')
  {
    CountSnoc(p, v);
    if v.vtype !in counts {
      CountOfAbsent(p, v.vtype);
    }
  }

  lemma AmountStep(p: seq<Voucher>, v: Voucher, order: seq<string>, amounts: map<string, real>,
                   order': seq<string>, amounts': map<string, real>)
    requires order == Types(p) && Summed(p, order, amounts)
    requires order' == if v.vtype in order then order else order + [v.vtype]
    requires amounts' == amounts[v.vtype := (if v.vtype in amounts then amounts[v.vtype] else 0.0) + v.amount]
    ensures Summed(p + [v], order', amounts')
  {
    AmountSnoc(p, v);
    if v.vtype !in amounts {
      AmountOfAbsent(p, v.vtype);
    }
  }

  /** The type order of `p + [v]` from that of `p`. */
  lemma TypesSnoc(p: seq<Voucher>, v: Voucher)
    ensures Types(p + [v]) == if v.vtype in Types(p) then Types(p) else Types(p) + [v.vtype]
  {
    assert Init(p + [v]) == p && Last(p + [v]) == v;
  }

  /** The counts of `p + [v]` from those of `p`. */
  lemma CountSnoc(p: seq<Voucher>, v: Voucher)
    ensures forall u :: CountOf(p + [v], u) == CountOf(p, u) + (if v.vtype == u then 1 else 0)
  {
    assert Init(p + [v]) == p && Last(p + [v]) == v;
  }

  /** The amounts of `p + [v]` from those of `p`. */
  lemma AmountSnoc(p: seq<Voucher>, v: Voucher)
    ensures forall u :: AmountOf(p + [v], u) == AmountOf(p, u) + (if v.vtype == u then v.amount else 0.0)
  {
    assert Init(p + [v]) == p && Last(p + [v]) == v;
  }

  lemma {:induction false} AmountOfAbsent(vs: seq<Voucher>, t: string)
    requires t !in Types(vs)
    ensures AmountOf(vs, t) == 0.0
  {
    if vs != [] {
      AmountOfAbsent(Init(vs), t);
    }
  }

  /** Rendering a type from the dictionaries gives the line of its tallies. */
  lemma TalliedLines(vs: seq<Voucher>, order: seq<string>, counts: map<string, nat>, amounts: map<string, real>,
                     sorted: seq<string>, cur: real -> string)
    requires Tallied(vs, order, counts, amounts) && multiset(sorted) == multiset(order)
    ensures Seqs.Map(sorted, TalliedLine(counts, amounts, cur)) == Seqs.Map(sorted, TypeLine(vs, cur))
  {
    forall i | 0 <= i < |sorted| ensures TalliedLine(counts, amounts, cur)(sorted[i]) == TypeLine(vs, cur)(sorted[i]) {
      assert sorted[i] in multiset(order);
    }
  }

  /** `get_transactions_for_period`: the summary, or the fixed message for an empty period. */
  function PeriodText(vs: seq<Voucher>, from: string, to: string, cur: real -> string): string {
    if vs == [] then "No transactions from " + from + " to " + to + "." else Join(PeriodLines(vs, from, to, cur), "\n")
  }

  /** The summary built from the tallies, the capped detail lines and the count left out. */
  method FormatPeriod(vs: seq<Voucher>, from: string, to: string, cur: real -> string) returns (text: string)
    ensures text == PeriodText(vs, from, to, cur)
  {
    if vs == [] {
      return "No transactions from " + from + " to " + to + ".";
    }
    var order, counts, amounts := TallyByType(vs);
    var sorted := Seqs.SortDesc(order, CountKey(counts));
    Seqs.SortDescSameKeys(order, CountKey(counts), ByCount(vs));
    var typeLines := RenderLines(sorted, TalliedLine(counts, amounts, cur));
    TalliedLines(vs, order, counts, amounts, sorted, cur);
    var details := RenderLines(vs[..Min(15, |vs|)], DetailLine(cur));
    var more := [];
    if |vs| > 15 {
      more := ["  ... and " + NatToDecimal(|vs| - 15) + " more"];
    }
    var lines := ["Period: " + from + " to " + to, "Total vouchers: " + NatToDecimal(|vs|) + "\n"]
                 + typeLines + ["\nFirst 15:"] + details + more;
    assert lines == PeriodLines(vs, from, to, cur);
    text := Join(lines, "\n");
  }
}
