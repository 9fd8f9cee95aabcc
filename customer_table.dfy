/** The customer table: filter buttons, a bulk-send button, a header
    checkbox and one row per visible customer. It holds no state; every
    flag is computed from what the dashboard passes in. */
module CustomerTable {
  import opened JsText
  import opened Types

  /** The segment filter: every customer, or one segment. */
  datatype SegmentFilter = All | Only(segment: Segment)

  datatype FilterOption = FilterOption(id: SegmentFilter, caption: string)

  const FilterOptions: seq<FilterOption> := [
    FilterOption(All, "All"),
    FilterOption(Only(Premium), "Premium"),
    FilterOption(Only(Regular), "Regular"),
    FilterOption(Only(Normal), "Normal")]

  /** Clicking the i-th filter button passes that button's filter on. */
  function FilterClicked(i: nat): SegmentFilter
    requires i < |FilterOptions|
  {
    FilterOptions[i].id
  }

  /** The four buttons offer every filter exactly once, in the order all,
      premium, regular, normal. */
  lemma FilterOptionsComplete(f: SegmentFilter)
    ensures exists i :: 0 <= i < |FilterOptions| && FilterClicked(i) == f
    ensures forall i, j :: 0 <= i < j < |FilterOptions| ==> FilterClicked(i) != FilterClicked(j)
    ensures FilterClicked(0) == All && FilterClicked(1) == Only(Premium)
         && FilterClicked(2) == Only(Regular) && FilterClicked(3) == Only(Normal)
  {
    match f
    case All => assert FilterClicked(0) == f;
    case Only(Premium) => assert FilterClicked(1) == f;
    case Only(Regular) => assert FilterClicked(2) == f;
    case Only(Normal) => assert FilterClicked(3) == f;
  }

  /** The header checkbox: a non-empty list and as many selected ids as
      visible rows. Only the counts are compared. */
  predicate AreAllSelected(data: seq<TopCustomer>, selected: seq<string>) {
    |data| > 0 && |selected| == |data|
  }

  /** With nothing visible the header box is unchecked, although the
      selection then covers every (that is, no) row. */
  lemma EmptyTableHeaderUnchecked(selected: seq<string>)
    ensures !AreAllSelected([], selected)
  {
  }

  /** Counts, not membership: two selected ids that belong to no row still
      check the header box of a two-row table. */
  lemma HeaderComparesCounts(a: TopCustomer, b: TopCustomer)
    requires a.id != "x" && a.id != "y" && b.id != "x" && b.id != "y"
    ensures AreAllSelected([a, b], ["x", "y"])
    ensures forall r :: r in Rows([a, b], ["x", "y"]) ==> !r.checked
  {
  }

  /** The bulk-send button is disabled exactly when nothing is selected. */
  predicate BulkSendDisabled(selected: seq<string>) {
    |selected| == 0
  }

  const BulkLabelHead: string := "Send Offer ("

  /** The bulk-send button's caption carries the selection count, which
      can be read back from it. */
  function BulkSendLabel(selected: seq<string>): (caption: string)
    ensures StartsWith(caption, BulkLabelHead) && |caption| > |BulkLabelHead| + 1
    ensures caption[|caption| - 1] == ')'
    ensures var digits := caption[|BulkLabelHead|..|caption| - 1];
      (forall i :: 0 <= i < |digits| ==> IsDigit(digits[i])) && DecimalValue(digits) == |selected|
  {
    var text := BulkLabelHead + Decimal(|selected|) + ")";
    assert text[|BulkLabelHead|..|text| - 1] == Decimal(|selected|);
    text
  }

  datatype Row = Row(customer: TopCustomer, checked: bool)

  /** One row per visible customer, in the order given; a row is checked
      exactly when its id is in the selection. */
  function Rows(data: seq<TopCustomer>, selected: seq<string>): (rows: seq<Row>)
    ensures |rows| == |data|
    ensures forall i :: 0 <= i < |data| ==>
      rows[i].customer == data[i] && (rows[i].checked <==> data[i].id in selected)
  {
    if data == [] then []
    else [Row(data[0], data[0].id in selected)] + Rows(data[1..], selected)
  }
}
