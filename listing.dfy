/**
 * The public listing of approved tickets (`GET /tickets/approved-tickets?page=n`):
 * the approved tickets in collection order, skipping `(page - 1) * 9` and taking 9,
 * together with the number of approved tickets.
 */
module Listing {
  import opened Wrappers
  import opened JsNumbers
  import opened Mongo
  import opened Entities

  const PageSize: nat := 9

  predicate IsApproved(d: Doc<Ticket>) {
    d.fields.status == Some("approved")
  }

  /** `find({ status: 'approved' })`: the approved tickets, in collection order. */
  function Approved(ts: seq<Doc<Ticket>>): (r: seq<Doc<Ticket>>)
    ensures |r| <= |ts|
    ensures forall d :: d in r <==> d in ts && IsApproved(d)
  {
    if ts == [] then []
    else if IsApproved(ts[0]) then [ts[0]] + Approved(ts[1..])
    else Approved(ts[1..])
  }

  /** `countDocuments({ status: 'approved' })`. */
  function CountApproved(ts: seq<Doc<Ticket>>): (c: nat)
    ensures c == |Approved(ts)|
  {
    if ts == [] then 0 else (if IsApproved(ts[0]) then 1 else 0) + CountApproved(ts[1..])
  }

  datatype Page = Page(data: seq<Doc<Ticket>>, totalTickets: nat)

  /** The store is taken to reject a skip that is not a non-negative integer. */
  datatype PageError = SkipRejected

  /** `(page - 1) * size`, with the query string converted as JavaScript does. */
  function PageSkip(page: Option<string>): Number {
    Mul(Add(ToNumberOf(page), Int(-1)), Int(PageSize))
  }

  /** The skip is an integer exactly when the page converts to one, and is then `(page - 1) * 9`. */
  lemma PageSkipValue(page: Option<string>)
    ensures PageSkip(page).Int? <==> ToNumberOf(page).Int?
    ensures PageSkip(page).Int? ==> PageSkip(page).value == (ToNumberOf(page).value - 1) * PageSize
  {
  }

  function ApprovedPage(ts: seq<Doc<Ticket>>, page: Option<string>): (r: Result<Page, PageError>)
    ensures r.Success? <==> PageSkip(page).Int? && PageSkip(page).value >= 0
    ensures r.Success? ==> |r.value.data| <= PageSize
    ensures r.Success? ==> forall d :: d in r.value.data ==> d in ts && IsApproved(d)
    ensures r.Success? ==> r.value.totalTickets == |Approved(ts)|
  {
    var skip := PageSkip(page);
    if skip.Int? && skip.value >= 0 then
      Success(PageAt(ts, skip.value))
    else
      Failure(SkipRejected)
  }

  /** The page for a non-negative skip: `find(...).skip(skip).limit(9)` and the count. */
  function PageAt(ts: seq<Doc<Ticket>>, skip: nat): (p: Page)
    ensures |p.data| <= PageSize
    ensures forall d :: d in p.data ==> d in ts && IsApproved(d)
    ensures p.totalTickets == |Approved(ts)|
  {
    var data := SkipLimit(Approved(ts), skip, PageSize);
    assert forall d :: d in data ==> d in Approved(ts);
    Page(data, CountApproved(ts))
  }

  /** The page at `skip` is the part of the approved list from `skip`, at most 9 long. */
  lemma PageAtWindow(ts: seq<Doc<Ticket>>, skip: nat)
    ensures var p := PageAt(ts, skip);
      var a := Approved(ts);
      && p.totalTickets == |a|
      && |p.data| == (if skip >= |a| then 0 else Min(PageSize, |a| - skip))
      && forall k :: 0 <= k < |p.data| ==> p.data[k] == a[skip + k]
  {
    var a := Approved(ts);
    var data := SkipLimit(a, skip, PageSize);
    assert |data| == if skip >= |a| then 0 else Min(PageSize, |a| - skip);
    assert PageAt(ts, skip) == Page(data, |a|);
  }

  /**
   * A query value that converts to the number n >= 1 (`"2"`, `" 2"`, `"+2"`, `"02"`;
   * the `String(n)` a client sends converts back to n by `IntToStringRoundTrip`)
   * gives the approved tickets at positions (n-1)*9 up to n*9 of the approved list, as
   * many of them as exist, and the count of all approved tickets.
   */
  lemma PageWindow(ts: seq<Doc<Ticket>>, page: Option<string>, n: int)
    requires ToNumberOf(page) == Int(n) && n >= 1
    ensures var r := ApprovedPage(ts, page);
      var a := Approved(ts);
      && r.Success?
      && r.value.totalTickets == |a|
      && |r.value.data| == (if (n - 1) * PageSize >= |a| then 0 else Min(PageSize, |a| - (n - 1) * PageSize))
      && forall k :: 0 <= k < |r.value.data| ==> r.value.data[k] == a[(n - 1) * PageSize + k]
  {
    var skip := (n - 1) * PageSize;
    assert PageSkip(page) == Int(skip);
    PageAtWindow(ts, skip);
  }

  /** A query value that converts to a number below 1 gives a negative skip, which the store is taken to reject. */
  lemma PageBelowOneRejected(ts: seq<Doc<Ticket>>, page: Option<string>, n: int)
    requires ToNumberOf(page) == Int(n) && n < 1
    ensures ApprovedPage(ts, page) == Failure(SkipRejected)
  {
    assert PageSkip(page) == Int((n - 1) * PageSize);
    assert (n - 1) * PageSize < 0;
  }

  /**
   * A missing `page` or one that is not a number (`"abc"`, `"1.5x"`) gives a NaN skip,
   * which the store is taken to reject.
   */
  lemma PageNotANumberRejected(ts: seq<Doc<Ticket>>, page: Option<string>)
    requires ToNumberOf(page).NaN?
    ensures ApprovedPage(ts, page) == Failure(SkipRejected)
  {
  }
}
