/** The `bootstrap_four_button` pagination control: paging information
    derived from the table settings, the window of at most five page numbers,
    the update of each paging list, and the click handlers. */
module Pagination {

  const ListLength: int := 5
  const Half: int := 2   // Math.floor(ListLength / 2)

  /** The parts of the DataTables settings object the control reads. */
  datatype Settings = Settings(
    displayStart: int,     // _iDisplayStart
    displayLength: int,    // _iDisplayLength
    displayEnd: int,       // fnDisplayEnd()
    recordsTotal: int,     // fnRecordsTotal()
    recordsDisplay: int)   // fnRecordsDisplay()

  datatype PagingInfo = PagingInfo(
    start: int, end: int, length: int, total: int, filteredTotal: int,
    page: int, totalPages: int)

  /** Math.ceil(a / b) for a non-zero divisor. */
  function CeilDiv(a: int, b: int): (q: int)
    requires b != 0
    ensures b > 0 ==> (q - 1) * b < a <= q * b
    ensures b < 0 ==> q * b <= a < (q - 1) * b
  {
    if b > 0 then -((-a) / b) else -(a / (-b))
  }

  /** fnPagingInfo: the current page is ceil(start / length) and the number
      of pages is ceil(filtered records / length). */
  function FnPagingInfo(s: Settings): (info: PagingInfo)
    requires s.displayLength != 0
    ensures info.length == s.displayLength && info.start == s.displayStart
    ensures s.displayLength > 0 ==>
              (info.page - 1) * s.displayLength < s.displayStart <= info.page * s.displayLength
    ensures s.displayLength > 0 ==>
              (info.totalPages - 1) * s.displayLength < s.recordsDisplay <= info.totalPages * s.displayLength
  {
    PagingInfo(s.displayStart, s.displayEnd, s.displayLength, s.recordsTotal, s.recordsDisplay,
               CeilDiv(s.displayStart, s.displayLength), CeilDiv(s.recordsDisplay, s.displayLength))
  }

  /** The first and last page numbers shown (iStart, iEnd). */
  function Window(page: int, totalPages: int): (w: (int, int)) {
    if totalPages < ListLength then (1, totalPages)
    else if page <= Half then (1, ListLength)
    else if page >= totalPages - Half then (totalPages - ListLength + 1, totalPages)
    else (page - Half + 1, page - Half + ListLength)
  }

  /** Fewer than five pages: exactly 1..totalPages (nothing for no pages).
      Otherwise five consecutive numbers inside 1..totalPages, starting at 1
      near the front, ending at totalPages near the back, and centred on the
      current page in between; the current page (page + 1, one-based) is
      shown whenever it exists. */
  lemma WindowProperties(page: int, totalPages: int)
    ensures totalPages < ListLength ==> Window(page, totalPages) == (1, totalPages)
    ensures totalPages >= ListLength ==>
              var (s, e) := Window(page, totalPages);
              e - s + 1 == ListLength && 1 <= s && e <= totalPages
    ensures totalPages >= ListLength && page <= Half ==> Window(page, totalPages).0 == 1
    ensures totalPages >= ListLength && page > Half && page >= totalPages - Half ==>
              Window(page, totalPages).1 == totalPages
    ensures totalPages >= ListLength && Half < page < totalPages - Half ==>
              Window(page, totalPages).0 == page - 1 && Window(page, totalPages).1 == page + 3
    ensures 0 <= page < totalPages ==>
              Window(page, totalPages).0 <= page + 1 <= Window(page, totalPages).1
  {
  }

  datatype NavButton = First | Previous | Next | Last

  /** The list items of a paging list: the four navigation items built by
      fnInit, and the numbered page items built by fnUpdate. */
  datatype Li =
    | NavLi(button: NavButton, text: string, disabled: bool)
    | PageLi(number: int, active: bool)

  /** The page items for iStart..iEnd; the one for the current page is
      active. */
  function PageItems(page: int, from: int, to: int): (r: seq<Li>)
    ensures |r| == if to < from then 0 else to - from + 1
    ensures forall k :: 0 <= k < |r| ==> (r[k] == PageLi(from + k, from + k == page + 1))
    decreases if to < from then 0 else to - from + 1
  {
    if to < from then []
    else
      var rest := PageItems(page, from + 1, to);
      var r := [PageLi(from, from == page + 1)] + rest;
      assert forall k :: 1 <= k < |r| ==> r[k] == rest[k - 1];
      r
  }

  function WithDisabled(li: Li, d: bool): Li {
    if li.NavLi? then li.(disabled := d) else li
  }

  /** The four navigation items a paging list keeps at its ends. */
  ghost predicate WellFormed(items: seq<Li>) {
    |items| >= 4
    && items[0].NavLi? && items[0].button == First
    && items[1].NavLi? && items[1].button == Previous
    && items[|items| - 2].NavLi? && items[|items| - 2].button == Next
    && items[|items| - 1].NavLi? && items[|items| - 1].button == Last
  }

  /** First/Previous are disabled on the first page; Next/Last on the last
      page and when there are no pages. */
  predicate FrontDisabled(info: PagingInfo) { info.page == 0 }
  predicate BackDisabled(info: PagingInfo) {
    info.page == info.totalPages - 1 || info.totalPages == 0
  }

  /** The list items after fnUpdate: the two leading and two trailing items
      with their disabled flags set, and the window's page items between
      them. */
  function Updated(items: seq<Li>, info: PagingInfo): (r: seq<Li>)
    requires |items| >= 4
  {
    var (s, e) := Window(info.page, info.totalPages);
    var n := |items|;
    [WithDisabled(items[0], FrontDisabled(info)), WithDisabled(items[1], FrontDisabled(info))]
    + PageItems(info.page, s, e)
    + [WithDisabled(items[n - 2], BackDisabled(info)), WithDisabled(items[n - 1], BackDisabled(info))]
  }

  /** An update keeps the navigation items at both ends, has 4 + window
      length items, marks exactly the current page active, and updating
      again changes nothing. */
  lemma UpdatedProperties(items: seq<Li>, info: PagingInfo)
    requires WellFormed(items)
    ensures var r := Updated(items, info);
            var (s, e) := Window(info.page, info.totalPages);
            WellFormed(r)
            && |r| == 4 + (if e < s then 0 else e - s + 1)
            && r[0].disabled == r[1].disabled == FrontDisabled(info)
            && r[|r| - 1].disabled == r[|r| - 2].disabled == BackDisabled(info)
            && r[0].text == items[0].text && r[1].text == items[1].text
            && r[|r| - 2].text == items[|items| - 2].text && r[|r| - 1].text == items[|items| - 1].text
            && (forall k :: 2 <= k < |r| - 2 ==>
                  (r[k].PageLi? && r[k].number == s + k - 2 && (r[k].active <==> r[k].number == info.page + 1)))
            && Updated(r, info) == r
  {
    var r := Updated(items, info);
    var (s, e) := Window(info.page, info.totalPages);
    var p := PageItems(info.page, s, e);
    assert r[2..|r| - 2] == p;
    var rr := Updated(r, info);
    assert rr[2..|rr| - 2] == p;
    assert rr == rr[..2] + rr[2..|rr| - 2] + rr[|rr| - 2..];
    assert r == r[..2] + r[2..|r| - 2] + r[|r| - 2..];
  }

  /** fnInit: the list the control appends, four disabled navigation items
      labelled from the language settings. */
  class PagingList {
    var items: seq<Li>

    ghost predicate Valid() reads this {
      WellFormed(items)
    }

    constructor (sFirst: string, sPrevious: string, sNext: string, sLast: string)
      ensures Valid()
      ensures items == [NavLi(First, "&laquo; " + sFirst, true),
                        NavLi(Previous, "&lsaquo; " + sPrevious, true),
                        NavLi(Next, sNext + " &rsaquo;", true),
                        NavLi(Last, sLast + " &raquo;", true)]
    {
      items := [NavLi(First, "&laquo; " + sFirst, true),
                NavLi(Previous, "&lsaquo; " + sPrevious, true),
                NavLi(Next, sNext + " &rsaquo;", true),
                NavLi(Last, sLast + " &raquo;", true)];
    }

    /** The body of fnUpdate's loop for one list: remove the middle items,
        insert each page item before the second-to-last item, then set the
        disabled flags of the four navigation items. */
    method Update(info: PagingInfo)
      requires Valid()
      modifies this
      ensures Valid()
      ensures items == Updated(old(items), info)
    {
      var original := items;
      var n := |original|;
      var list := original[..2] + original[n - 2..];
      var (iStart, iEnd) := Window(info.page, info.totalPages);
      var j := iStart;
      while j <= iEnd
        invariant iStart <= j <= if iEnd < iStart then iStart else iEnd + 1
        invariant list == original[..2] + PageItems(info.page, iStart, j - 1) + original[n - 2..]
        decreases iEnd - j
      {
        PageItemsSnoc(info.page, iStart, j);
        InsertBeforeLastTwo(original[..2], PageItems(info.page, iStart, j - 1), original[n - 2..],
                            PageLi(j, j == info.page + 1));
        var m := |list|;
        list := list[..m - 2] + [PageLi(j, j == info.page + 1)] + list[m - 2..];
        j := j + 1;
      }
      assert PageItems(info.page, iStart, j - 1) == PageItems(info.page, iStart, iEnd);
      var m := |list|;
      var front := FrontDisabled(info);
      var back := BackDisabled(info);
      FlagsSet(original, info);
      items := [WithDisabled(list[0], front), WithDisabled(list[1], front)] + list[2..m - 2]
               + [WithDisabled(list[m - 2], back), WithDisabled(list[m - 1], back)];
    }
  }

  /** The last step of an update: with the page items in place between the
      original ends, setting the four disabled flags gives Updated. */
  lemma FlagsSet(original: seq<Li>, info: PagingInfo)
    requires WellFormed(original)
    ensures var (s, e) := Window(info.page, info.totalPages);
            var n := |original|;
            var cur := original[..2] + PageItems(info.page, s, e) + original[n - 2..];
            var m := |cur|;
            var front := FrontDisabled(info);
            var back := BackDisabled(info);
            m >= 4 && WellFormed(Updated(original, info))
            && [WithDisabled(cur[0], front), WithDisabled(cur[1], front)] + cur[2..m - 2]
               + [WithDisabled(cur[m - 2], back), WithDisabled(cur[m - 1], back)] == Updated(original, info)
  {
    var (s, e) := Window(info.page, info.totalPages);
    var n := |original|;
    MiddleOf(original[..2], PageItems(info.page, s, e), original[n - 2..]);
  }

  /** Inserting before the second-to-last item of `front + middle + back`
      appends to the middle. */
  lemma InsertBeforeLastTwo(front: seq<Li>, middle: seq<Li>, back: seq<Li>, x: Li)
    requires |back| == 2
    ensures var cur := front + middle + back;
            cur[..|cur| - 2] + [x] + cur[|cur| - 2..] == front + (middle + [x]) + back
  {
    var cur := front + middle + back;
    assert cur[..|cur| - 2] == front + middle;
    assert cur[|cur| - 2..] == back;
  }

  lemma MiddleOf(front: seq<Li>, middle: seq<Li>, back: seq<Li>)
    requires |front| == 2 && |back| == 2
    ensures var cur := front + middle + back;
            cur[2..|cur| - 2] == middle && cur[0] == front[0] && cur[1] == front[1]
            && cur[|cur| - 2] == back[0] && cur[|cur| - 1] == back[1]
  {
    var cur := front + middle + back;
    assert cur[2..|cur| - 2] == middle;
  }

  lemma PageItemsSnoc(page: int, from: int, j: int)
    requires from <= j
    ensures PageItems(page, from, j) == PageItems(page, from, j - 1) + [PageLi(j, j == page + 1)]
  {
  }

  /** A list updated once or twice from the same information ends the same. */
  lemma UpdateTwice(items: seq<Li>, info: PagingInfo)
    requires WellFormed(items)
    ensures WellFormed(Updated(items, info)) && Updated(Updated(items, info), info) == Updated(items, info)
  {
    UpdatedProperties(items, info);
  }

  /** fnUpdate: every paging list of the table is updated from the same
      paging information. The same list given twice is updated twice, which
      leaves it as one update does. */
  method FnUpdate(settings: Settings, an: seq<PagingList>)
    requires settings.displayLength != 0
    requires forall c :: c in an ==> c.Valid()
    modifies set c | c in an
    ensures forall c :: c in an ==>
              c.Valid() && |old(c.items)| >= 4 && c.items == Updated(old(c.items), FnPagingInfo(settings))
  {
    var info := FnPagingInfo(settings);
    var i := 0;
    while i < |an|
      invariant 0 <= i <= |an|
      invariant forall k :: 0 <= k < |an| ==>
                  an[k].Valid() && WellFormed(old(an[k].items))
                  && (an[k].items == Updated(old(an[k].items), info) || (i <= k && an[k].items == old(an[k].items)))
    {
      var c := an[i];
      UpdateTwice(old(c.items), info);
      c.Update(info);
      i := i + 1;
    }
  }

  /** A click on page item j: the display start moves to the first record of
      page j, then the table is redrawn. */
  function PageClick(s: Settings, j: int, iLength: int): (r: Settings)
    ensures r.displayStart == (j - 1) * iLength
    ensures r.(displayStart := s.displayStart) == s
  {
    s.(displayStart := (j - 1) * iLength)
  }

  /** Clicking page item j makes page j - 1 (zero-based) the current page, so
      the next update marks item j active. */
  lemma PageClickSelectsPage(s: Settings, j: int)
    requires s.displayLength > 0
    ensures FnPagingInfo(PageClick(s, j, s.displayLength)).page == j - 1
  {
    var L := s.displayLength;
    var q := FnPagingInfo(PageClick(s, j, L)).page;
    assert (q - 1) * L < (j - 1) * L <= q * L;
    MulLess(q - 1, j - 1, L);
    assert (j - 2) * L == (j - 1) * L - L;
    assert (j - 2) * L < q * L;
    MulLess(j - 2, q, L);
  }

  lemma MulLess(a: int, b: int, n: int)
    requires n > 0 && a * n < b * n
    ensures a < b
  {
  }

  datatype Action = FirstPage | PreviousPage | NextPage | LastPage

  /** The action each navigation item is bound to in fnInit. */
  function ActionOf(b: NavButton): Action {
    match b
    case First => FirstPage
    case Previous => PreviousPage
    case Next => NextPage
    case Last => LastPage
  }

  /** parseInt of a quotient with a positive divisor: the fraction is
      dropped toward zero. */
  function TruncDiv(a: int, b: int): int
    requires b > 0
  {
    if a >= 0 then a / b else -((-a) / b)
  }

  /** The page change DataTables performs for a navigation action
      (`_fnPageChange` of the DataTables library the control plugs into):
      first goes to record 0; previous goes back one page but not below 0;
      next goes forward one page while records remain after it; last goes
      to the first record of the last page; a negative length ("show all")
      always goes to 0. It reports whether the display start moved. A zero
      length is outside what this captures: the host's last-page start is
      then parseInt of a division by 0, a NaN start that counts as a move,
      while here the start stays where it was. */
  function HostPageChange(s: Settings, a: Action): (r: (Settings, bool))
    ensures r.0 == s.(displayStart := r.0.displayStart)
    ensures r.1 <==> r.0.displayStart != s.displayStart
  {
    var len := s.displayLength;
    var start :=
      if len < 0 then 0
      else match a
        case FirstPage => 0
        case PreviousPage => if s.displayStart - len < 0 then 0 else s.displayStart - len
        case NextPage => if s.displayStart + len < s.recordsDisplay then s.displayStart + len else s.displayStart
        case LastPage => if len == 0 then s.displayStart else (TruncDiv(s.recordsDisplay - 1, len) + 1 - 1) * len;
    (s.(displayStart := start), start != s.displayStart)
  }

  /** A click on a navigation item (fnClickHandler): DataTables' page change
      for the item's action decides whether the page moved, and the table is
      redrawn only then. Only the display start can change; on the first
      record First and Previous do nothing, and when no record follows the
      current page Next does nothing. */
  function NavClick(s: Settings, b: NavButton): (r: (Settings, bool))
    ensures r.0 == s.(displayStart := r.0.displayStart)
    ensures r.1 <==> r.0.displayStart != s.displayStart
    ensures s.displayStart == 0 && (b == First || b == Previous) ==> r == (s, false)
    ensures s.displayLength >= 0 && s.displayStart + s.displayLength >= s.recordsDisplay && b == Next ==> r == (s, false)
  {
    HostPageChange(s, ActionOf(b))
  }

  /** The page a navigation action leads to from page p of totalPages. */
  function TargetPage(b: NavButton, p: int, totalPages: int): int {
    match b
    case First => 0
    case Previous => if p == 0 then 0 else p - 1
    case Next => if p == totalPages - 1 then p else p + 1
    case Last => totalPages - 1
  }

  /** On a page-aligned start inside a table that has records, a click on a
      navigation item, with DataTables' page change, redraws exactly when
      fnUpdate left that item enabled (First and Previous unless on the
      first page, Next and Last unless on the last), lands on the target
      page with the start aligned again, and redraws exactly when the
      current page changes. */
  lemma NavClickFollowsDisabledFlags(s: Settings, b: NavButton, p: nat)
    requires s.displayLength > 0 && s.displayStart == p * s.displayLength
    requires p < FnPagingInfo(s).totalPages
    ensures var info := FnPagingInfo(s);
            var r := NavClick(s, b);
            info.page == p
            && (r.1 <==> if b == First || b == Previous then !FrontDisabled(info) else !BackDisabled(info))
            && r.0.displayStart == TargetPage(b, p, info.totalPages) * s.displayLength
            && FnPagingInfo(r.0).page == TargetPage(b, p, info.totalPages)
            && (r.1 <==> FnPagingInfo(r.0).page != info.page)
  {
    var len := s.displayLength;
    var total := FnPagingInfo(s).totalPages;
    var q := TargetPage(b, p, total);
    CeilDivExact(p, len);
    var r := HostPageChange(s, ActionOf(b));
    assert (total - 1) * len < s.recordsDisplay <= total * len;
    match b {
      case First =>
      case Previous =>
        assert p * len - len == (p - 1) * len;
      case Next =>
        assert p * len + len == (p + 1) * len;
        if p < total - 1 {
          MulMono(p + 1, total - 1, len);
        }
      case Last =>
        assert (total - 1) * len <= s.recordsDisplay - 1 < total * len;
        DivUnique(s.recordsDisplay - 1, len, total - 1);
    }
    assert r.0.displayStart == q * len;
    CeilDivExact(q, len);
  }

  lemma CeilDivExact(q: int, n: int)
    requires n > 0
    ensures CeilDiv(q * n, n) == q
  {
    var c := CeilDiv(q * n, n);
    MulLess(c - 1, q, n);
    if c > q {
      MulMono(q + 1, c, n);
    }
  }

  lemma MulMono(a: int, b: int, n: int)
    requires n > 0 && a <= b
    ensures a * n <= b * n
  {
  }

  lemma DivUnique(a: int, n: int, q: int)
    requires n > 0 && q * n <= a < (q + 1) * n
    ensures a / n == q
  {
    var d := a / n;
    assert d * n <= a < d * n + n;
    if d < q {
      MulMono(d + 1, q, n);
    } else if d > q {
      MulMono(q + 1, d, n);
    }
  }
}
