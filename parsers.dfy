/**
 * The shape-specific readers of tally_mcp.py that turn an exported Tally
 * element tree into ledger records, name lists and display-report rows.
 * A `float()` that raises makes the whole parse fail (`None`).
 */
module Parsers {
  import opened Wrappers
  import opened Text
  import opened XmlTree
  import Seqs

  datatype Ledger = Ledger(name: string, group: string, balance: real)

  /** `el.get("NAME")`, with a missing attribute read as "" (both are falsy). */
  function NameOf(e: Element): string {
    Get(e, "NAME").GetOr("")
  }

  predicate HasName(e: Element) {
    NameOf(e) != ""
  }

  /** The stripped text of an element, when it has text that is not all whitespace. */
  function StrippedText(e: Element): (r: Option<string>)
    ensures r.None? <==> e.text.None? || AllSpace(e.text.value)
    ensures r.Some? ==> r.value != [] && r.value == Strip(e.text.value)
  {
    if e.text.Some? && Strip(e.text.value) != "" then Some(Strip(e.text.value)) else None
  }

  /** The stripped text of the first child with the tag, when there is one with non-blank text. */
  function ChildText(e: Element, tag: string): Option<string> {
    match Find(e, tag)
    case None => None
    case Some(c) => StrippedText(c)
  }

  /** The ledger's group: the `PARENT` child's stripped text, or "". */
  function GroupOf(e: Element): string {
    ChildText(e, "PARENT").GetOr("")
  }

  /**
   * The ledger's closing balance: 0 when the `CLOSINGBALANCE` child is missing
   * or blank, otherwise `float` of its stripped text; `None` when that raises.
   */
  function BalanceOf(e: Element): Option<real> {
    match ChildText(e, "CLOSINGBALANCE")
    case None => Some(0.0)
    case Some(t) => ParseDecimal(t)
  }

  function LedgerFrom(e: Element): Ledger {
    Ledger(NameOf(e), GroupOf(e), BalanceOf(e).GetOr(0.0))
  }

  /** The ledger elements the parser keeps, those with a non-empty `NAME`. */
  function Named(els: seq<Element>): (r: seq<Element>)
    ensures forall i :: 0 <= i < |r| ==> HasName(r[i])
  {
    var r := Seqs.Filter(els, HasName);
    assert forall i :: 0 <= i < |r| ==> r[i] in r;
    r
  }

  /** One record per named ledger element, in document order. */
  function LedgerRecords(els: seq<Element>): seq<Ledger> {
    Seqs.Map(Named(els), LedgerFrom)
  }

  /** Every named ledger element has a balance `float` accepts. */
  predicate BalancesParse(els: seq<Element>) {
    forall i :: 0 <= i < |els| && HasName(els[i]) ==> BalanceOf(els[i]).Some?
  }

  lemma NamedSnoc(els: seq<Element>, e: Element)
    ensures Named(els + [e]) == Named(els) + (if HasName(e) then [e] else [])
  {
    Seqs.FilterAppend(els, [e], HasName);
    assert [e][1..] == [];
  }

  /**
   * `_parse_ledgers`: `None` exactly when some named ledger's balance does
   * not parse; otherwise one record per named `LEDGER` element, in order.
   */
  method ParseLedgers(root: Element) returns (r: Option<seq<Ledger>>)
    ensures r.Some? <==> BalancesParse(Iter(root, "LEDGER"))
    ensures r.Some? ==> r.value == LedgerRecords(Iter(root, "LEDGER"))
  {
    var els := Iter(root, "LEDGER");
    var results: seq<Ledger> := [];
    var i := 0;
    while i < |els|
      invariant 0 <= i <= |els|
      invariant BalancesParse(els[..i])
      invariant results == LedgerRecords(els[..i])
    {
      var el := els[i];
      if HasName(el) {
        var balance := BalanceOf(el);
        if balance.None? {
          assert HasName(els[i]) && BalanceOf(els[i]).None?;
          return None;
        }
        results := results + [Ledger(NameOf(el), GroupOf(el), balance.value)];
      }
      RecordsStep(els, i, results);
      i := i + 1;
    }
    assert els[..i] == els;
    return Some(results);
  }

  /** One step of the ledger loop: the records of `els[..i + 1]` extend those of `els[..i]`. */
  lemma RecordsStep(els: seq<Element>, i: nat, results: seq<Ledger>)
    requires i < |els|
    requires BalancesParse(els[..i]) && !(HasName(els[i]) && BalanceOf(els[i]).None?)
    ensures BalancesParse(els[..i + 1])
    ensures LedgerRecords(els[..i + 1]) == LedgerRecords(els[..i]) + (if HasName(els[i]) then [LedgerFrom(els[i])] else [])
  {
    assert els[..i + 1] == els[..i] + [els[i]];
    BalancesSnoc(els[..i], els[i]);
    RecordsSnoc(els[..i], els[i]);
  }

  lemma BalancesSnoc(p: seq<Element>, e: Element)
    requires BalancesParse(p) && !(HasName(e) && BalanceOf(e).None?)
    ensures BalancesParse(p + [e])
  {
    forall j | 0 <= j < |p + [e]| && HasName((p + [e])[j]) ensures BalanceOf((p + [e])[j]).Some? {
      if j < |p| {
        assert (p + [e])[j] == p[j];
      }
    }
  }

  lemma RecordsSnoc(p: seq<Element>, e: Element)
    ensures LedgerRecords(p + [e]) == LedgerRecords(p) + (if HasName(e) then [LedgerFrom(e)] else [])
  {
    NamedSnoc(p, e);
    Seqs.MapAppend(Named(p), if HasName(e) then [e] else [], LedgerFrom);
  }

  /** The ledger records carry exactly the names of the named elements, each non-empty. */
  lemma LedgerRecordNames(els: seq<Element>)
    ensures |LedgerRecords(els)| == |Named(els)| <= |els|
    ensures forall i :: 0 <= i < |LedgerRecords(els)| ==> LedgerRecords(els)[i].name == NameOf(Named(els)[i]) != ""
  {
  }

  /** A ledger without a `PARENT` gets the empty group; one without a readable closing balance gets 0. */
  lemma LedgerDefaults(e: Element)
    ensures Find(e, "PARENT").None? ==> LedgerFrom(e).group == ""
    ensures (Find(e, "CLOSINGBALANCE").None? || Find(e, "CLOSINGBALANCE").value.text.None?
             || AllSpace(Find(e, "CLOSINGBALANCE").value.text.value)) ==> BalanceOf(e) == Some(0.0)
  {
  }

  /** `[el.get("NAME") for el in els if el.get("NAME")]` */
  function NamesOf(els: seq<Element>): (r: seq<string>)
    ensures |r| <= |els|
    ensures forall i :: 0 <= i < |r| ==> r[i] != ""
  {
    Seqs.Map(Named(els), NameOf)
  }

  /** The name lists list every named element's name and nothing else. */
  lemma NamesOfMembers(els: seq<Element>, x: string)
    ensures x in NamesOf(els) <==> exists i :: 0 <= i < |els| && HasName(els[i]) && NameOf(els[i]) == x
  {
    var named := Named(els);
    if x in NamesOf(els) {
      var k :| 0 <= k < |named| && NamesOf(els)[k] == x;
      assert named[k] in named;
      var i :| 0 <= i < |els| && els[i] == named[k];
    }
    if exists i :: 0 <= i < |els| && HasName(els[i]) && NameOf(els[i]) == x {
      var i :| 0 <= i < |els| && HasName(els[i]) && NameOf(els[i]) == x;
      assert els[i] in els;
      assert els[i] in named;
      var k :| 0 <= k < |named| && named[k] == els[i];
      assert NamesOf(els)[k] == x;
    }
  }

  /** `_parse_groups`. */
  function Groups(root: Element): seq<string> {
    NamesOf(Iter(root, "GROUP"))
  }

  /** `_parse_stock_items`. */
  function StockItems(root: Element): seq<string> {
    NamesOf(Iter(root, "STOCKITEM"))
  }

  predicate HasText(e: Element) {
    e.text.Some? && e.text.value != ""
  }

  function TextValue(e: Element): string {
    e.text.GetOr("")
  }

  /** `[el.text for el in root.iter("DSPDISPNAME") if el.text]`: the account names of a display report. */
  function DisplayNames(root: Element): (r: seq<string>)
    ensures forall i :: 0 <= i < |r| ==> r[i] != ""
  {
    var withText := Seqs.Filter(Iter(root, "DSPDISPNAME"), HasText);
    assert forall i :: 0 <= i < |withText| ==> withText[i] in withText;
    Seqs.Map(withText, TextValue)
  }

  /**
   * The amount paired with the `i`-th name: the stripped text of the `i`-th
   * amount element, or the default when there is none or it is blank.
   */
  function AmountAt(els: seq<Element>, i: nat, default: string): (r: string)
    ensures i >= |els| || StrippedText(els[i]).None? ==> r == default
    ensures i < |els| && StrippedText(els[i]).Some? ==> r == Strip(els[i].text.value) && r != []
  {
    if i < |els| then StrippedText(els[i]).GetOr(default) else default
  }

  /** Python's `a or b` on strings. */
  function OrElse(a: string, b: string): string {
    if a != "" then a else b
  }

  datatype ReportRow = TrialRow(name: string, debit: string, credit: string) | AmountRow(name: string, amount: string)

  /** The P&L amount of row `i`: the main amount, else the sub amount, else "0". */
  function PnlAmount(mainEls: seq<Element>, subEls: seq<Element>, i: nat): string {
    OrElse(AmountAt(mainEls, i, ""), OrElse(AmountAt(subEls, i, ""), "0"))
  }

  /** A P&L amount is never empty, and it is "0" when both paired amounts are missing or blank. */
  lemma PnlAmountCases(mainEls: seq<Element>, subEls: seq<Element>, i: nat)
    ensures PnlAmount(mainEls, subEls, i) != ""
    ensures AmountAt(mainEls, i, "") == "" && AmountAt(subEls, i, "") == "" ==> PnlAmount(mainEls, subEls, i) == "0"
  {
  }

  /** The trial-balance branch: debit and credit paired with each name by index. */
  method TrialBalanceRows(root: Element) returns (rows: seq<ReportRow>)
    ensures |rows| == |DisplayNames(root)|
    ensures forall i :: 0 <= i < |rows| ==>
      rows[i] == TrialRow(DisplayNames(root)[i], AmountAt(Iter(root, "DSPCLDRAMTA"), i, ""), AmountAt(Iter(root, "DSPCLCRAMTA"), i, ""))
  {
    var names := DisplayNames(root);
    var drEls, crEls := Iter(root, "DSPCLDRAMTA"), Iter(root, "DSPCLCRAMTA");
    rows := [];
    var i := 0;
    while i < |names|
      invariant 0 <= i <= |names| && |rows| == i
      invariant forall k :: 0 <= k < i ==> rows[k] == TrialRow(names[k], AmountAt(drEls, k, ""), AmountAt(crEls, k, ""))
    {
      rows := rows + [TrialRow(names[i], AmountAt(drEls, i, ""), AmountAt(crEls, i, ""))];
      i := i + 1;
    }
  }

  /** The P&L branch: `main or sub or "0"` for each name. */
  method PnlRows(root: Element) returns (rows: seq<ReportRow>)
    ensures |rows| == |DisplayNames(root)|
    ensures forall i :: 0 <= i < |rows| ==> rows[i] == AmountRow(DisplayNames(root)[i], PnlAmount(Iter(root, "BSMAINAMT"), Iter(root, "PLSUBAMT"), i))
  {
    var names := DisplayNames(root);
    var mainEls, subEls := Iter(root, "BSMAINAMT"), Iter(root, "PLSUBAMT");
    rows := [];
    var i := 0;
    while i < |names|
      invariant 0 <= i <= |names| && |rows| == i
      invariant forall k :: 0 <= k < i ==> rows[k] == AmountRow(names[k], PnlAmount(mainEls, subEls, k))
    {
      var main, sub := AmountAt(mainEls, i, ""), AmountAt(subEls, i, "");
      assert OrElse(main, OrElse(sub, "0")) == PnlAmount(mainEls, subEls, i);
      rows := rows + [AmountRow(names[i], OrElse(main, OrElse(sub, "0")))];
      i := i + 1;
    }
  }

  /** The balance-sheet branch: the main amount for each name, "0" when missing or blank. */
  method BalanceSheetRows(root: Element) returns (rows: seq<ReportRow>)
    ensures |rows| == |DisplayNames(root)|
    ensures forall i :: 0 <= i < |rows| ==> rows[i] == AmountRow(DisplayNames(root)[i], AmountAt(Iter(root, "BSMAINAMT"), i, "0"))
  {
    var names := DisplayNames(root);
    var mainEls := Iter(root, "BSMAINAMT");
    rows := [];
    var i := 0;
    while i < |names|
      invariant 0 <= i <= |names| && |rows| == i
      invariant forall k :: 0 <= k < i ==> rows[k] == AmountRow(names[k], AmountAt(mainEls, k, "0"))
    {
      rows := rows + [AmountRow(names[i], AmountAt(mainEls, i, "0"))];
      i := i + 1;
    }
  }

  /** The rows of a display report of the given kind, as one value. */
  function DisplayRows(root: Element, kind: string): seq<ReportRow> {
    var names := DisplayNames(root);
    if kind == "trial_balance" then
      seq(|names|, i requires 0 <= i < |names| =>
        TrialRow(names[i], AmountAt(Iter(root, "DSPCLDRAMTA"), i, ""), AmountAt(Iter(root, "DSPCLCRAMTA"), i, "")))
    else if kind == "pnl" then
      seq(|names|, i requires 0 <= i < |names| => AmountRow(names[i], PnlAmount(Iter(root, "BSMAINAMT"), Iter(root, "PLSUBAMT"), i)))
    else if kind == "balance_sheet" then
      seq(|names|, i requires 0 <= i < |names| => AmountRow(names[i], AmountAt(Iter(root, "BSMAINAMT"), i, "0")))
    else []
  }

  /**
   * `_parse_display_report`: for the three known kinds one row per display
   * name, in order, with amounts paired by index; `[]` for any other kind.
   */
  method ParseDisplayReport(root: Element, kind: string) returns (rows: seq<ReportRow>)
    ensures kind != "trial_balance" && kind != "pnl" && kind != "balance_sheet" ==> rows == []
    ensures kind == "trial_balance" || kind == "pnl" || kind == "balance_sheet" ==> |rows| == |DisplayNames(root)|
    ensures kind == "trial_balance" ==> forall i :: 0 <= i < |rows| ==>
      rows[i] == TrialRow(DisplayNames(root)[i], AmountAt(Iter(root, "DSPCLDRAMTA"), i, ""), AmountAt(Iter(root, "DSPCLCRAMTA"), i, ""))
    ensures kind == "pnl" ==> forall i :: 0 <= i < |rows| ==> rows[i] == AmountRow(DisplayNames(root)[i], PnlAmount(Iter(root, "BSMAINAMT"), Iter(root, "PLSUBAMT"), i))
    ensures kind == "balance_sheet" ==> forall i :: 0 <= i < |rows| ==>
      rows[i] == AmountRow(DisplayNames(root)[i], AmountAt(Iter(root, "BSMAINAMT"), i, "0"))
    ensures rows == DisplayRows(root, kind)
  {
    if kind == "trial_balance" {
      rows := TrialBalanceRows(root);
    } else if kind == "pnl" {
      rows := PnlRows(root);
    } else if kind == "balance_sheet" {
      rows := BalanceSheetRows(root);
    } else {
      rows := [];
    }
  }
}
