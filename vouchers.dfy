/**
 * Day Book vouchers (tally_mcp.py `_parse_vouchers`) and the prioritised
 * fallback chain that finds a voucher's total (`_extract_voucher_amount`).
 */
module Vouchers {
  import opened Wrappers
  import opened Text
  import opened XmlTree
  import Seqs

  datatype Voucher = Voucher(vtype: string, date: string, party: string, amount: real, narration: string, number: string)

  function Abs(x: real): (r: real)
    ensures r >= 0.0 && (r == x || r == -x)
  {
    if x < 0.0 then -x else x
  }

  /**
   * Steps 1 and 2 for one ledger entry: flagged as the party ledger, with a
   * non-empty `AMOUNT` that `float` accepts; its absolute value.
   */
  function PartyAmount(entry: Element): (r: Option<real>)
    ensures r.Some? ==> r.value >= 0.0
  {
    var amt := FindText(entry, "AMOUNT", "");
    if FindText(entry, "ISPARTYLEDGER", "No") == "Yes" && amt != "" && ParseDecimal(amt).Some?
    then Some(Abs(ParseDecimal(amt).value))
    else None
  }

  /** Step 3 for one inventory entry: the absolute amount, or nothing when it is missing or does not parse. */
  function InventoryAmount(inv: Element): (r: real)
    ensures r >= 0.0
  {
    var amt := FindText(inv, "AMOUNT", "");
    if amt != "" && ParseDecimal(amt).Some? then Abs(ParseDecimal(amt).value) else 0.0
  }

  /** Step 4 for one `AMOUNT` element: its absolute value when the text is non-blank, parses and is not 0. */
  function PositiveAmount(el: Element): (r: Option<real>)
    ensures r.Some? ==> r.value > 0.0
  {
    if el.text.Some? && Strip(el.text.value) != "" && ParseDecimal(el.text.value).Some?
       && Abs(ParseDecimal(el.text.value).value) > 0.0
    then Some(Abs(ParseDecimal(el.text.value).value))
    else None
  }

  function AllEntries(v: Element): seq<Element> { Iter(v, "ALLLEDGERENTRIES.LIST") }
  function LedgerEntries(v: Element): seq<Element> { Iter(v, "LEDGERENTRIES.LIST") }
  function InventoryEntries(v: Element): seq<Element> { Iter(v, "INVENTORYENTRIES.LIST") }
  function AmountElements(v: Element): seq<Element> { Iter(v, "AMOUNT") }

  function InventoryTotal(v: Element): (r: real)
    ensures r >= 0.0
  {
    var total := Seqs.SumOver(InventoryEntries(v), InventoryAmount);
    Seqs.SumNonNegative(InventoryEntries(v), InventoryAmount);
    total
  }

  /**
   * The voucher's total: the first party entry among `ALLLEDGERENTRIES.LIST`,
   * else among `LEDGERENTRIES.LIST`, else the inventory sum when it is
   * positive, else the first positive `AMOUNT` anywhere, else 0.
   */
  function VoucherAmount(v: Element): (r: real)
    ensures r >= 0.0
  {
    match Seqs.FirstSome(AllEntries(v), PartyAmount)
    case Some(a) => a
    case None =>
      match Seqs.FirstSome(LedgerEntries(v), PartyAmount)
      case Some(a) => a
      case None =>
        if InventoryTotal(v) > 0.0 then InventoryTotal(v)
        else Seqs.FirstSome(AmountElements(v), PositiveAmount).GetOr(0.0)
  }

  /**
   * `_extract_voucher_amount`, with its loops and early returns; the result
   * is the fallback chain `VoucherAmount`.
   */
  method ExtractVoucherAmount(v: Element) returns (amount: real)
    ensures amount == VoucherAmount(v)
  {
    var party := Seqs.FindFirst(AllEntries(v), PartyAmount);
    if party.Some? {
      return party.value;
    }
    party := Seqs.FindFirst(LedgerEntries(v), PartyAmount);
    if party.Some? {
      return party.value;
    }
    var invTotal := Seqs.Accumulate(InventoryEntries(v), InventoryAmount);
    if invTotal > 0.0 {
      return invTotal;
    }
    var positive := Seqs.FindFirst(AmountElements(v), PositiveAmount);
    if positive.Some? {
      return positive.value;
    }
    return 0.0;
  }

  /**
   * Step 1 wins: the first usable party entry among `ALLLEDGERENTRIES.LIST`
   * decides the amount, even when it is 0 and whatever the other entries hold.
   */
  lemma PartyEntryWins(v: Element, j: nat)
    requires j < |AllEntries(v)| && PartyAmount(AllEntries(v)[j]).Some?
    requires forall k :: 0 <= k < j ==> PartyAmount(AllEntries(v)[k]).None?
    ensures VoucherAmount(v) == PartyAmount(AllEntries(v)[j]).value
  {
    Seqs.FirstSomeAt(AllEntries(v), PartyAmount, j);
  }

  /** Step 2 applies only when step 1 finds nothing. */
  lemma LedgerEntryNext(v: Element, j: nat)
    requires forall k :: 0 <= k < |AllEntries(v)| ==> PartyAmount(AllEntries(v)[k]).None?
    requires j < |LedgerEntries(v)| && PartyAmount(LedgerEntries(v)[j]).Some?
    requires forall k :: 0 <= k < j ==> PartyAmount(LedgerEntries(v)[k]).None?
    ensures VoucherAmount(v) == PartyAmount(LedgerEntries(v)[j]).value
  {
    Seqs.FirstSomeAt(LedgerEntries(v), PartyAmount, j);
  }

  /**
   * Without a party entry the inventory sum is the amount only when it is
   * positive; otherwise the first positive `AMOUNT` anywhere, else 0.
   */
  lemma InventoryThenAnyAmount(v: Element)
    requires forall k :: 0 <= k < |AllEntries(v)| ==> PartyAmount(AllEntries(v)[k]).None?
    requires forall k :: 0 <= k < |LedgerEntries(v)| ==> PartyAmount(LedgerEntries(v)[k]).None?
    ensures InventoryTotal(v) > 0.0 ==> VoucherAmount(v) == Seqs.SumOver(InventoryEntries(v), InventoryAmount)
    ensures InventoryTotal(v) == 0.0 ==> VoucherAmount(v) == Seqs.FirstSome(AmountElements(v), PositiveAmount).GetOr(0.0)
  {
  }

  /** When no step matches the amount is 0. */
  lemma NothingMatchesIsZero(v: Element)
    requires forall k :: 0 <= k < |AllEntries(v)| ==> PartyAmount(AllEntries(v)[k]).None?
    requires forall k :: 0 <= k < |LedgerEntries(v)| ==> PartyAmount(LedgerEntries(v)[k]).None?
    requires forall k :: 0 <= k < |InventoryEntries(v)| ==> InventoryAmount(InventoryEntries(v)[k]) == 0.0
    requires forall k :: 0 <= k < |AmountElements(v)| ==> PositiveAmount(AmountElements(v)[k]).None?
    ensures VoucherAmount(v) == 0.0
  {
    Seqs.SumOfZeros(InventoryEntries(v), InventoryAmount);
  }

  /** One Day Book record with the given amount; the type defaults to "?" when `VCHTYPE` is missing. */
  function Record(v: Element, amount: real): Voucher {
    Voucher(Get(v, "VCHTYPE").GetOr("?"), FindText(v, "DATE", ""), FindText(v, "PARTYLEDGERNAME", ""),
            amount, FindText(v, "NARRATION", ""), FindText(v, "VOUCHERNUMBER", ""))
  }

  function VoucherOf(v: Element): Voucher {
    Record(v, VoucherAmount(v))
  }

  lemma ParseStep(els: seq<Element>, i: nat, vs: seq<Voucher>, amount: real)
    requires i < |els| && vs == Seqs.Map(els[..i], VoucherOf) && amount == VoucherAmount(els[i])
    ensures vs + [Record(els[i], amount)] == Seqs.Map(els[..i + 1], VoucherOf)
  {
    assert els[..i + 1] == els[..i] + [els[i]];
    Seqs.MapAppend(els[..i], [els[i]], VoucherOf);
  }

  /** `_parse_vouchers`: one record per `VOUCHER` element, in document order. */
  method ParseVouchers(root: Element) returns (vs: seq<Voucher>)
    ensures vs == Seqs.Map(Iter(root, "VOUCHER"), VoucherOf)
  {
    var els := Iter(root, "VOUCHER");
    vs := [];
    var i := 0;
    while i < |els|
      invariant 0 <= i <= |els|
      invariant vs == Seqs.Map(els[..i], VoucherOf)
    {
      var v := els[i];
      var amount := ExtractVoucherAmount(v);
      ParseStep(els, i, vs, amount);
      vs := vs + [Record(v, amount)];
      i := i + 1;
    }
    assert els[..i] == els;
  }
}
