/** The server-side processing request parser: DataTables sends the paging,
    search and per-column parameters of a draw, and the parser turns them
    into column definitions and the list of sorted columns. */
module Criterias {
  import opened Wrappers
  import opened JavaString
  import opened StringUtils

  const SearchParam: string := "search[value]"
  const DrawParam: string := "draw"
  const StartParam: string := "start"
  const LengthParam: string := "length"

  /** The parameters of the HTTP request: their names, in the order the
      container enumerates them, and their (first) values. */
  datatype Request = Request(parameterNames: seq<string>, parameters: map<string, string>)

  function Parameter(req: Request, name: string): Option<string> {
    if name in req.parameters then Some(req.parameters[name]) else None
  }

  datatype SortDirection = ASC | DESC

  datatype ColumnDef = ColumnDef(
    name: Option<string>,
    sortable: bool,
    sorted: bool,
    filterable: bool,
    filtered: bool,
    regex: Option<string>,
    search: Option<string>,
    searchFrom: Option<string>,
    searchTo: Option<string>,
    sortDirection: Option<SortDirection>)

  /** The parsed criteria. The sorting list of the source holds the very
      objects of the column list; here it holds their indexes, so a direction
      set through one is seen through the other. */
  datatype Criterias = Criterias(
    search: Option<string>,
    start: int,
    length: int,
    columnDefs: seq<ColumnDef>,
    sortingColumns: seq<nat>,
    draw: int)

  // ---------------------------------------------------------------------
  // Column count: the matches of the pattern columns\[([0-9]*)?\]
  // ---------------------------------------------------------------------

  const ColumnsOpen: string := "columns["

  /** The end of the run of digits starting at k. */
  function DigitRunEnd(s: string, k: nat): (e: nat)
    requires k <= |s|
    ensures k <= e <= |s| && AllDigits(s[k..e])
    ensures e < |s| ==> !IsDigit(s[e])
    decreases |s| - k
  {
    if k < |s| && IsDigit(s[k]) then
      var e := DigitRunEnd(s, k + 1);
      assert s[k..e] == [s[k]] + s[k + 1..e];
      e
    else k
  }

  /** The pattern matches at p: "columns[", then a run of digits, then "]".
      A shorter digit run would leave a digit where "]" is needed, so the
      greedy run is the only candidate. */
  predicate OpensAt(s: string, p: nat) {
    p + |ColumnsOpen| <= |s| && s[p..p + |ColumnsOpen|] == ColumnsOpen
  }

  predicate MatchAt(s: string, p: nat) {
    OpensAt(s, p)
    && DigitRunEnd(s, p + |ColumnsOpen|) < |s| && s[DigitRunEnd(s, p + |ColumnsOpen|)] == ']'
  }

  /** The first groups Matcher.find returns when searching from p, in order;
      each search resumes after the previous match. */
  function GroupsFrom(s: string, p: nat): (r: seq<string>)
    requires p <= |s|
    ensures forall g :: g in r ==> AllDigits(g)
    decreases |s| - p
  {
    if p == |s| then []
    else if MatchAt(s, p) then
      var e := DigitRunEnd(s, p + |ColumnsOpen|);
      [s[p + |ColumnsOpen|..e]] + GroupsFrom(s, e + 1)
    else GroupsFrom(s, p + 1)
  }

  /** The groups of every parameter name, name by name. */
  function AllGroups(names: seq<string>): (r: seq<string>)
    ensures forall g :: g in r ==> AllDigits(g)
  {
    if |names| == 0 then [] else GroupsFrom(names[0], 0) + AllGroups(names[1..])
  }

  /** Integer.parseInt of each group in turn, keeping the largest value above
      `acc`; the first group that does not parse (the empty one, or one out
      of the 32-bit range) ends the search with its exception. */
  function MaxParsed(groups: seq<string>, acc: int): (r: Result<int>)
    ensures r.Ok? ==> r.value >= acc
  {
    if |groups| == 0 then Ok(acc)
    else match ParseInt(groups[0])
      case Err(e) => Err(e)
      case Ok(v) => MaxParsed(groups[1..], if v > acc then v else acc)
  }

  /** getColumnNumber as written: the largest index plus one, but 0 when the
      largest index is 0. */
  function ColumnNumber(names: seq<string>): Result<nat> {
    match MaxParsed(AllGroups(names), 0)
    case Err(e) => Err(e)
    case Ok(m) => Ok(if m != 0 then m + 1 else 0)
  }

  lemma {:induction false} DigitsParse(g: string)
    requires AllDigits(g) && |g| > 0
    ensures ParseInt(g).Ok? ==> ParseInt(g).value >= 0
    ensures ParseInt(g).Ok? <==> DigitsValue(g) <= MaxInt
  {
  }

  /** What MaxParsed computes: it fails exactly when some group does not
      parse, and otherwise gives the largest of `acc` and the parsed
      values. */
  lemma {:induction false} MaxParsedMeaning(groups: seq<string>, acc: int)
    ensures MaxParsed(groups, acc).Ok? <==> forall g :: g in groups ==> ParseInt(g).Ok?
    ensures MaxParsed(groups, acc).Err? ==>
              exists g :: g in groups && ParseInt(g).Err? && MaxParsed(groups, acc).error == NumberFormat(g)
    ensures MaxParsed(groups, acc).Ok? ==>
              var m := MaxParsed(groups, acc).value;
              m >= acc
              && (forall g :: g in groups ==> ParseInt(g).value <= m)
              && (m == acc || exists g :: g in groups && ParseInt(g).value == m)
    decreases |groups|
  {
    if |groups| > 0 {
      var rest := groups[1..];
      assert forall g :: g in groups <==> g == groups[0] || g in rest;
      match ParseInt(groups[0])
      case Err(e) =>
      case Ok(v) =>
        MaxParsedMeaning(rest, if v > acc then v else acc);
    }
  }

  /** The column count is 0 or (largest index) + 1: every index is below a
      positive count and the count minus one is one of them; a count of 0
      means no index above 0 occurs. A name with "columns[]" or an index
      beyond the 32-bit range raises NumberFormatException. */
  lemma ColumnNumberMeaning(names: seq<string>)
    ensures ColumnNumber(names).Ok? <==> forall g :: g in AllGroups(names) ==> ParseInt(g).Ok?
    ensures ColumnNumber(names).Ok? && ColumnNumber(names).value > 0 ==>
              var n := ColumnNumber(names).value;
              (forall g :: g in AllGroups(names) ==> 0 <= ParseInt(g).value < n)
              && exists g :: g in AllGroups(names) && ParseInt(g).value == n - 1
    ensures ColumnNumber(names).Ok? && ColumnNumber(names).value == 0 ==>
              forall g :: g in AllGroups(names) ==> ParseInt(g).value == 0
  {
    var gs := AllGroups(names);
    MaxParsedMeaning(gs, 0);
    forall g | g in gs && ParseInt(g).Ok? ensures ParseInt(g).value >= 0 {
      if |g| > 0 { DigitsParse(g); }
    }
  }

  /** The count the unit test for a single column expects: the largest index
      plus one as soon as any columns[i] parameter is present. */
  function ColumnNumberIntended(names: seq<string>): Result<nat> {
    match MaxParsed(AllGroups(names), 0)
    case Err(e) => Err(e)
    case Ok(m) => Ok(if |AllGroups(names)| > 0 then m + 1 else 0)
  }

  /** Every index found lies below the intended count, which is positive
      exactly when an index was found; it differs from the count as written
      only when every index found is 0. */
  lemma IntendedColumnNumber(names: seq<string>)
    ensures ColumnNumberIntended(names).Ok? <==> ColumnNumber(names).Ok?
    ensures ColumnNumberIntended(names).Ok? ==>
              var n := ColumnNumberIntended(names).value;
              (n > 0 <==> |AllGroups(names)| > 0)
              && (forall g :: g in AllGroups(names) ==> ParseInt(g).Ok? && 0 <= ParseInt(g).value < n)
              && (n > 0 ==> exists g :: g in AllGroups(names) && ParseInt(g).Ok? && ParseInt(g).value == n - 1)
    ensures ColumnNumberIntended(names).Ok? && ColumnNumberIntended(names) != ColumnNumber(names) ==>
              ColumnNumber(names) == Ok(0) && ColumnNumberIntended(names) == Ok(1)
  {
    var gs := AllGroups(names);
    MaxParsedMeaning(gs, 0);
    ColumnNumberMeaning(names);
    forall g | g in gs && ParseInt(g).Ok? ensures ParseInt(g).value >= 0 {
      if |g| > 0 { DigitsParse(g); }
    }
    if MaxParsed(gs, 0).Ok? && |gs| > 0 && MaxParsed(gs, 0).value == 0 {
      assert gs[0] in gs;
    }
  }

  /** A request whose only column parameter is columns[0][data] gets no
      column at all, where one column is expected. */
  lemma SingleColumnIsDropped()
    ensures ColumnNumber(["columns[0][data]"]) == Ok(0)
    ensures ColumnNumberIntended(["columns[0][data]"]) == Ok(1)
  {
    var s := "columns[0][data]";
    assert MatchAt(s, 0) by {
      assert s[0..8] == ColumnsOpen;
      assert DigitRunEnd(s, 8) == 9 by {
        assert DigitRunEnd(s, 9) == 9;
      }
    }
    assert s[8..9] == "0";
    assert GroupsFrom(s, 0) == ["0"] + GroupsFrom(s, 10);
    assert GroupsFrom(s, 10) == [] by {
      forall q | 10 <= q ensures !OpensAt(s, q) {}
      NoMatchBeyond(s, 10);
    }
    assert AllGroups([s]) == ["0"];
    assert ParseInt("0") == Ok(0);
  }

  /** Past the last "columns[" there is nothing more to find. */
  lemma {:induction false} NoMatchBeyond(s: string, p: nat)
    requires p <= |s|
    requires forall q :: p <= q ==> !OpensAt(s, q)
    ensures GroupsFrom(s, p) == []
    decreases |s| - p
  {
    if p < |s| {
      NoMatchBeyond(s, p + 1);
    }
  }

  /** The search of one name from p, step by step as Matcher.find scans:
      the largest index so far, or the first exception. */
  function FindFrom(s: string, p: nat, acc: int): Result<int>
    requires p <= |s|
    decreases |s| - p
  {
    if p == |s| then Ok(acc)
    else if MatchAt(s, p) then
      var e := DigitRunEnd(s, p + |ColumnsOpen|);
      match ParseInt(s[p + |ColumnsOpen|..e])
      case Err(err) => Err(err)
      case Ok(v) => FindFrom(s, e + 1, if v > acc then v else acc)
    else FindFrom(s, p + 1, acc)
  }

  /** The search of every name in turn. */
  function ScanNames(names: seq<string>, acc: int): Result<int> {
    if |names| == 0 then Ok(acc)
    else match FindFrom(names[0], 0, acc)
      case Err(err) => Err(err)
      case Ok(a) => ScanNames(names[1..], a)
  }

  lemma {:induction false} FindFromGroups(s: string, p: nat, acc: int)
    requires p <= |s|
    ensures FindFrom(s, p, acc) == MaxParsed(GroupsFrom(s, p), acc)
    decreases |s| - p
  {
    if p < |s| {
      if MatchAt(s, p) {
        var e := DigitRunEnd(s, p + |ColumnsOpen|);
        var g := s[p + |ColumnsOpen|..e];
        FoundGroup(s, p, acc);
        if ParseInt(g).Ok? {
          FindFromGroups(s, e + 1, if ParseInt(g).value > acc then ParseInt(g).value else acc);
        }
      } else {
        assert FindFrom(s, p, acc) == FindFrom(s, p + 1, acc);
        assert GroupsFrom(s, p) == GroupsFrom(s, p + 1);
        FindFromGroups(s, p + 1, acc);
      }
    }
  }

  /** A match at p: both sides parse its group first and go on after it. */
  lemma FoundGroup(s: string, p: nat, acc: int)
    requires p < |s| && MatchAt(s, p)
    ensures var e := DigitRunEnd(s, p + |ColumnsOpen|);
            var v := ParseInt(s[p + |ColumnsOpen|..e]);
            (v.Err? ==> FindFrom(s, p, acc) == MaxParsed(GroupsFrom(s, p), acc) == Err(v.error))
            && (v.Ok? ==> var a := if v.value > acc then v.value else acc;
                          FindFrom(s, p, acc) == FindFrom(s, e + 1, a)
                          && MaxParsed(GroupsFrom(s, p), acc) == MaxParsed(GroupsFrom(s, e + 1), a))
  {
    FindFromAtMatch(s, p, acc);
    GroupsAtMatch(s, p, acc);
  }

  /** No match at p: the search goes on at the next position. */
  lemma FindFromSkip(s: string, p: nat, acc: int)
    requires p < |s| && !MatchAt(s, p)
    ensures FindFrom(s, p, acc) == FindFrom(s, p + 1, acc)
  {
  }

  lemma FindFromAtMatch(s: string, p: nat, acc: int)
    requires p < |s| && MatchAt(s, p)
    ensures var e := DigitRunEnd(s, p + |ColumnsOpen|);
            var v := ParseInt(s[p + |ColumnsOpen|..e]);
            (v.Err? ==> FindFrom(s, p, acc) == Err(v.error))
            && (v.Ok? ==> FindFrom(s, p, acc) == FindFrom(s, e + 1, if v.value > acc then v.value else acc))
  {
  }

  lemma GroupsAtMatch(s: string, p: nat, acc: int)
    requires p < |s| && MatchAt(s, p)
    ensures var e := DigitRunEnd(s, p + |ColumnsOpen|);
            var v := ParseInt(s[p + |ColumnsOpen|..e]);
            (v.Err? ==> MaxParsed(GroupsFrom(s, p), acc) == Err(v.error))
            && (v.Ok? ==> MaxParsed(GroupsFrom(s, p), acc) == MaxParsed(GroupsFrom(s, e + 1), if v.value > acc then v.value else acc))
  {
    var e := DigitRunEnd(s, p + |ColumnsOpen|);
    GroupsAt(s, p);
    MaxParsedCons(s[p + |ColumnsOpen|..e], GroupsFrom(s, e + 1), acc);
  }

  lemma GroupsAt(s: string, p: nat)
    requires p < |s| && MatchAt(s, p)
    ensures var e := DigitRunEnd(s, p + |ColumnsOpen|);
            GroupsFrom(s, p) == [s[p + |ColumnsOpen|..e]] + GroupsFrom(s, e + 1)
  {
  }

  lemma MaxParsedCons(g: string, rest: seq<string>, acc: int)
    ensures var v := ParseInt(g);
            (v.Err? ==> MaxParsed([g] + rest, acc) == Err(v.error))
            && (v.Ok? ==> MaxParsed([g] + rest, acc) == MaxParsed(rest, if v.value > acc then v.value else acc))
  {
    assert ([g] + rest)[0] == g;
    assert ([g] + rest)[1..] == rest;
  }

  lemma {:induction false} ScanNamesGroups(names: seq<string>, acc: int)
    ensures ScanNames(names, acc) == MaxParsed(AllGroups(names), acc)
  {
    if |names| > 0 {
      FindFromGroups(names[0], 0, acc);
      MaxParsedAppend(GroupsFrom(names[0], 0), AllGroups(names[1..]), acc);
      match FindFrom(names[0], 0, acc)
      case Err(_) =>
      case Ok(a) => ScanNamesGroups(names[1..], a);
    }
  }

  /** The matcher loop of getColumnNumber over one parameter name: each
      group found is parsed and compared with the largest so far. */
  method FindInName(param: string, acc: int) returns (r: Result<int>)
    ensures r == FindFrom(param, 0, acc)
  {
    var columnNumber := acc;
    var p := 0;
    while p < |param|
      invariant 0 <= p <= |param|
      invariant FindFrom(param, 0, acc) == FindFrom(param, p, columnNumber)
      decreases |param| - p
    {
      if MatchAt(param, p) {
        FindFromAtMatch(param, p, columnNumber);
        var e := DigitRunEnd(param, p + |ColumnsOpen|);
        var col := ParseInt(param[p + |ColumnsOpen|..e]);
        if col.Err? {
          return Err(col.error);
        }
        if col.value > columnNumber {
          columnNumber := col.value;
        }
        p := e + 1;
      } else {
        FindFromSkip(param, p, columnNumber);
        p := p + 1;
      }
    }
    r := Ok(columnNumber);
  }

  /** getColumnNumber: every parameter name is searched for the pattern in
      turn, and each group found is parsed and compared with the largest so
      far. */
  method GetColumnNumber(req: Request) returns (r: Result<nat>)
    ensures r == ColumnNumber(req.parameterNames)
  {
    var names := req.parameterNames;
    var columnNumber := 0;
    var i := 0;
    while i < |names|
      invariant 0 <= i <= |names| && columnNumber >= 0
      invariant ScanNames(names, 0) == ScanNames(names[i..], columnNumber)
    {
      assert names[i..][1..] == names[i + 1..];
      var found := FindInName(names[i], columnNumber);
      if found.Err? {
        r := Err(found.error);
        ScanNamesGroups(names, 0);
        return;
      }
      FindFromGroups(names[i], 0, columnNumber);
      columnNumber := found.value;
      i := i + 1;
    }
    assert names[i..] == [];
    ScanNamesGroups(names, 0);
    if columnNumber != 0 {
      columnNumber := columnNumber + 1;
    }
    r := Ok(columnNumber);
  }

  lemma {:induction false} MaxParsedAppend(a: seq<string>, b: seq<string>, acc: int)
    ensures MaxParsed(a, acc).Err? ==> MaxParsed(a + b, acc) == MaxParsed(a, acc)
    ensures MaxParsed(a, acc).Ok? ==> MaxParsed(a + b, acc) == MaxParsed(b, MaxParsed(a, acc).value)
    decreases |a|
  {
    if |a| == 0 {
      assert a + b == b;
    } else {
      assert (a + b)[1..] == a[1..] + b;
      assert (a + b)[0] == a[0];
      match ParseInt(a[0])
      case Err(_) =>
      case Ok(v) => MaxParsedAppend(a[1..], b, if v > acc then v else acc);
    }
  }

  // ---------------------------------------------------------------------
  // Range search terms: "from~to"
  // ---------------------------------------------------------------------

  datatype SearchTerms = SearchTerms(search: Option<string>, searchFrom: Option<string>, searchTo: Option<string>)

  /** The split of a non-blank column search term as written: "~" alone is
      an empty search, a leading "~" gives the upper bound, a trailing "~"
      the lower bound, an inner "~" both, and anything else is a plain
      search. An index beyond the pieces of the split raises
      ArrayIndexOutOfBoundsException. */
  function SplitSearchAsWritten(term: string): Result<SearchTerms> {
    var parts := Split(term, '~');
    if term == "~" then Ok(SearchTerms(Some(""), None, None))
    else if StartsWith(term, "~") then
      if |parts| > 1 then Ok(SearchTerms(None, None, Some(parts[1]))) else Err(IndexOutOfBounds(1))
    else if EndsWith(term, "~") then
      if |parts| > 0 then Ok(SearchTerms(None, Some(parts[0]), None)) else Err(IndexOutOfBounds(0))
    else if '~' in term then
      if |parts| > 1 then Ok(SearchTerms(None, Some(parts[0]), Some(parts[1]))) else Err(IndexOutOfBounds(1))
    else Ok(SearchTerms(Some(term), None, None))
  }

  predicate AllTildes(term: string) {
    forall i :: 0 <= i < |term| ==> term[i] == '~'
  }

  /** The split as evidently intended: a term made only of "~" is an empty
      range, like "~" itself. */
  function SplitSearch(term: string): (r: SearchTerms)
    ensures SplitSearchAsWritten(term).Ok? ==> r == SplitSearchAsWritten(term).value
  {
    match SplitSearchAsWritten(term)
    case Ok(t) => t
    case Err(_) => SearchTerms(Some(""), None, None)
  }

  lemma {:induction false} PiecesAllEmpty(t: string, c: char)
    ensures (forall j :: 0 <= j < |Pieces(t, c)| ==> Pieces(t, c)[j] == "")
            <==> (forall i :: 0 <= i < |t| ==> t[i] == c)
    decreases |t|
  {
    if |t| > 0 {
      PiecesAllEmpty(t[1..], c);
      var rest := Pieces(t[1..], c);
      if t[0] == c {
        var all := Pieces(t, c);
        assert all == [""] + rest;
        if forall j :: 0 <= j < |rest| ==> rest[j] == "" {
          assert forall j :: 0 <= j < |all| ==> all[j] == "" by {
            forall j | 0 <= j < |all| ensures all[j] == "" {
              if j > 0 { assert all[j] == rest[j - 1]; }
            }
          }
          assert forall i :: 0 <= i < |t| ==> t[i] == c by {
            forall i | 0 <= i < |t| ensures t[i] == c {
              if i > 0 { assert t[i] == t[1..][i - 1]; }
            }
          }
        } else {
          var j :| 0 <= j < |rest| && rest[j] != "";
          assert all[j + 1] == rest[j];
          assert !(forall i :: 0 <= i < |t[1..]| ==> t[1..][i] == c);
          var i :| 0 <= i < |t[1..]| && t[1..][i] != c;
          assert t[i + 1] == t[1..][i];
        }
      } else {
        assert Pieces(t, c)[0] != "";
      }
    }
  }

  lemma {:induction false} LastPieceNonEmpty(t: string, c: char)
    requires |t| > 0 && t[|t| - 1] != c
    ensures Pieces(t, c)[|Pieces(t, c)| - 1] != ""
    decreases |t|
  {
    if |t| > 1 {
      assert t[1..][|t[1..]| - 1] == t[|t| - 1];
      LastPieceNonEmpty(t[1..], c);
    }
  }

  lemma {:induction false} AtLeastTwoPieces(t: string, c: char)
    requires c in t
    ensures |Pieces(t, c)| >= 2
    decreases |t|
  {
    if t[0] != c {
      assert c in t[1..];
      AtLeastTwoPieces(t[1..], c);
    }
  }

  lemma DropTrailingEmptyLength(p: seq<string>, k: nat)
    ensures |DropTrailingEmpty(p)| > k <==> exists j :: k <= j < |p| && p[j] != ""
  {
    var r := DropTrailingEmpty(p);
    if |r| > k {
      assert p[|r| - 1] == r[|r| - 1];
    }
  }

  /** The split as written fails exactly on the terms made of two or more
      "~": String.split drops all their (empty) pieces, and the branch for a
      leading "~" reads the second one. */
  lemma SplitSearchFailure(term: string)
    ensures SplitSearchAsWritten(term).Err? <==> |term| >= 2 && AllTildes(term)
  {
    if term == "~" {
    } else if StartsWith(term, "~") {
      LeadingTildeSplit(term);
    } else if EndsWith(term, "~") {
      assert term[0] != '~';
      assert Pieces(term, '~')[0] != "";
      DropTrailingEmptyLength(Pieces(term, '~'), 0);
    } else if '~' in term {
      assert term[0] != '~' && term[|term| - 1] != '~';
      AtLeastTwoPieces(term, '~');
      LastPieceNonEmpty(term, '~');
      DropTrailingEmptyLength(Pieces(term, '~'), 1);
    } else {
      assert !AllTildes(term) || |term| == 0;
    }
  }

  /** After a leading "~", split keeps a second piece exactly when some
      character is not "~". */
  lemma LeadingTildeSplit(term: string)
    requires |term| >= 2 && term[0] == '~'
    ensures |Split(term, '~')| > 1 <==> !AllTildes(term)
  {
    var rest := term[1..];
    assert '~' in term;
    var all := Pieces(term, '~');
    var tail := Pieces(rest, '~');
    assert all == [""] + tail;
    DropTrailingEmptyLength(all, 1);
    PiecesAllEmpty(rest, '~');
    if exists j :: 0 <= j < |tail| && tail[j] != "" {
      var j :| 0 <= j < |tail| && tail[j] != "";
      assert all[j + 1] == tail[j];
    }
    if exists j :: 1 <= j < |all| && all[j] != "" {
      var j :| 1 <= j < |all| && all[j] != "";
      assert tail[j - 1] == all[j];
    }
    assert AllTildes(term) <==> forall i :: 0 <= i < |rest| ==> rest[i] == '~' by {
      assert forall i :: 1 <= i < |term| ==> term[i] == rest[i - 1];
    }
  }

  /** "~~" raises ArrayIndexOutOfBoundsException; the intended split treats
      it as "~". */
  lemma DoubleTildeFails()
    ensures SplitSearchAsWritten("~~") == Err(IndexOutOfBounds(1))
    ensures SplitSearch("~~") == SplitSearch("~") == SearchTerms(Some(""), None, None)
  {
    SplitSearchFailure("~~");
  }

  /** The intended split never fails, agrees with the split as written
      wherever that succeeds, and treats every all-"~" term as "~". */
  lemma SplitSearchIntended(term: string)
    ensures SplitSearchAsWritten(term).Ok? ==> SplitSearch(term) == SplitSearchAsWritten(term).value
    ensures |term| > 0 && AllTildes(term) ==> SplitSearch(term) == SearchTerms(Some(""), None, None)
  {
    SplitSearchFailure(term);
  }

  /** A term without "~" is a plain search. */
  lemma SplitPlainTerm(a: string)
    requires |a| > 0 && '~' !in a
    ensures SplitSearchAsWritten(a) == Ok(SearchTerms(Some(a), None, None))
  {
    assert a[0] != '~' && a[|a| - 1] != '~';
  }

  /** "from~" sets only the lower bound. */
  lemma SplitLowerBound(a: string)
    requires |a| > 0 && '~' !in a
    ensures SplitSearchAsWritten(a + "~") == Ok(SearchTerms(None, Some(a), None))
  {
    var t := a + "~";
    PiecesOfPlain(a, '~');
    PiecesAppend(a, "", '~');
    assert a + ['~'] + "" == t;
    assert t[0] == a[0] && '~' in t;
    assert t != "~";
    assert DropTrailingEmpty([a, ""]) == [a];
  }

  /** "~to" sets only the upper bound. */
  lemma SplitUpperBound(b: string)
    requires |b| > 0 && '~' !in b
    ensures SplitSearchAsWritten("~" + b) == Ok(SearchTerms(None, None, Some(b)))
  {
    var t := "~" + b;
    PiecesAppend("", b, '~');
    assert "" + ['~'] + b == t;
    assert Pieces("", '~') == [""];
    assert t[|t| - 1] == b[|b| - 1] && t != "~";
    assert DropTrailingEmpty(["", b]) == ["", b];
  }

  /** "from~to" sets both bounds. */
  lemma SplitRange(a: string, b: string)
    requires |a| > 0 && |b| > 0 && '~' !in a && '~' !in b
    ensures SplitSearchAsWritten(a + "~" + b) == Ok(SearchTerms(None, Some(a), Some(b)))
  {
    var t := a + "~" + b;
    PiecesOfPlain(a, '~');
    PiecesAppend(a, b, '~');
    assert a + ['~'] + b == t;
    assert t[0] == a[0] && t[|t| - 1] == b[|b| - 1] && t[|a|] == '~';
    assert DropTrailingEmpty([a, b]) == [a, b];
  }
  // ---------------------------------------------------------------------
  // Column definitions and sorting
  // ---------------------------------------------------------------------

  function ColumnKey(i: nat, suffix: string): string {
    "columns[" + NatToString(i) + "]" + suffix
  }

  function OrderKey(i: nat, suffix: string): string {
    "order[" + NatToString(i) + "]" + suffix
  }

  /** The definition of column i, before any sort direction is set. */
  function ColumnAt(req: Request, i: nat): Result<ColumnDef> {
    var def := ColumnDef(
      name := Parameter(req, ColumnKey(i, "[data]")),
      sortable := ParseBoolean(Parameter(req, ColumnKey(i, "[orderable]"))),
      sorted := false,
      filterable := ParseBoolean(Parameter(req, ColumnKey(i, "[searchable]"))),
      filtered := false,
      regex := Parameter(req, ColumnKey(i, "[search][regex]")),
      search := None, searchFrom := None, searchTo := None, sortDirection := None);
    var term := Parameter(req, ColumnKey(i, "[search][value]"));
    if NotBlank(term) then
      match SplitSearchAsWritten(term.value)
      case Err(e) => Err(e)
      case Ok(t) => Ok(def.(filtered := true, search := t.search, searchFrom := t.searchFrom, searchTo := t.searchTo))
    else Ok(def)
  }

  /** The definitions of columns 0..n-1 in index order, or the first
      failure. */
  function Columns(req: Request, n: nat): (r: Result<seq<ColumnDef>>)
    ensures r.Ok? ==> |r.value| == n && forall i :: 0 <= i < n ==> ColumnAt(req, i) == Ok(r.value[i])
  {
    if n == 0 then Ok([])
    else match Columns(req, n - 1)
      case Err(e) => Err(e)
      case Ok(defs) =>
        match ColumnAt(req, n - 1)
        case Err(e) => Err(e)
        case Ok(d) => Ok(defs + [d])
  }

  lemma {:induction false} ColumnsErr(req: Request, i: nat, n: nat)
    requires i <= n && Columns(req, i).Err?
    ensures Columns(req, n) == Columns(req, i)
    decreases n - i
  {
    if i < n {
      ColumnsErr(req, i, n - 1);
    }
  }

  /** SortDirection.valueOf of the upper-cased direction. */
  function DirectionOf(dir: string): Result<SortDirection> {
    var u := ToUpper(dir);
    if u == "ASC" then Ok(ASC)
    else if u == "DESC" then Ok(DESC)
    else Err(IllegalArgument("No enum constant SortDirection." + u))
  }

  datatype SortState = SortState(defs: seq<ColumnDef>, sorting: seq<nat>)

  /** order[i]: a non-blank column index selects a column definition, which
      gets the direction when one is given and is appended to the sorting
      list. */
  function SortStep(req: Request, i: nat, st: SortState): Result<SortState> {
    var column := Parameter(req, OrderKey(i, "[column]"));
    if !NotBlank(column) then Ok(st)
    else match ParseInt(column.value)
      case Err(e) => Err(e)
      case Ok(k) =>
        if k < 0 || k >= |st.defs| then Err(IndexOutOfBounds(k))
        else
          var dir := Parameter(req, OrderKey(i, "[dir]"));
          if NotBlank(dir) then
            match DirectionOf(dir.value)
            case Err(e) => Err(e)
            case Ok(d) => Ok(SortState(st.defs[k := st.defs[k].(sortDirection := Some(d))], st.sorting + [k]))
          else Ok(SortState(st.defs, st.sorting + [k]))
  }

  /** order[0..n-1] applied in turn. */
  function Sorting(req: Request, n: nat, defs: seq<ColumnDef>): Result<SortState> {
    if n == 0 then Ok(SortState(defs, []))
    else match Sorting(req, n - 1, defs)
      case Err(e) => Err(e)
      case Ok(st) => SortStep(req, n - 1, st)
  }

  lemma {:induction false} SortingErr(req: Request, i: nat, n: nat, defs: seq<ColumnDef>)
    requires i <= n && Sorting(req, i, defs).Err?
    ensures Sorting(req, n, defs) == Sorting(req, i, defs)
    decreases n - i
  {
    if i < n {
      SortingErr(req, i, n - 1, defs);
    }
  }

  /** draw, start and length: the parsed value, or -1 when blank. */
  function IntParameter(req: Request, name: string): Result<int> {
    var p := Parameter(req, name);
    if NotBlank(p) then ParseInt(p.value) else Ok(-1)
  }

  /** getFromRequest. */
  function FromRequest(request: Option<Request>): Result<Criterias> {
    if request.None? then Err(IllegalArgument("The HTTP request cannot be null"))
    else
      var req := request.value;
      match ColumnNumber(req.parameterNames)
      case Err(e) => Err(e)
      case Ok(n) =>
        match IntParameter(req, DrawParam)
        case Err(e) => Err(e)
        case Ok(draw) =>
          match IntParameter(req, StartParam)
          case Err(e) => Err(e)
          case Ok(start) =>
            match IntParameter(req, LengthParam)
            case Err(e) => Err(e)
            case Ok(length) =>
              match Columns(req, n)
              case Err(e) => Err(e)
              case Ok(defs) =>
                match Sorting(req, n, defs)
                case Err(e) => Err(e)
                case Ok(st) => Ok(Criterias(Parameter(req, SearchParam), start, length, st.defs, st.sorting, draw))
  }

  /** getFromRequest: the column count, the paging parameters, then one
      definition per column and one sorting entry per order[i]. */
  method GetFromRequest(request: Option<Request>) returns (r: Result<Criterias>)
    ensures r == FromRequest(request)
  {
    if request.None? {
      return Err(IllegalArgument("The HTTP request cannot be null"));
    }
    var req := request.value;
    var cn := GetColumnNumber(req);
    if cn.Err? {
      return Err(cn.error);
    }
    var columnNumber := cn.value;

    var paramSearch := Parameter(req, SearchParam);
    var draw := ParseIntParameter(req, DrawParam);
    if draw.Err? {
      return Err(draw.error);
    }
    var start := ParseIntParameter(req, StartParam);
    if start.Err? {
      return Err(start.error);
    }
    var length := ParseIntParameter(req, LengthParam);
    if length.Err? {
      return Err(length.error);
    }

    var columnDefs := BuildColumnDefs(req, columnNumber);
    if columnDefs.Err? {
      return Err(columnDefs.error);
    }
    var sorted := BuildSorting(req, columnNumber, columnDefs.value);
    if sorted.Err? {
      return Err(sorted.error);
    }
    r := Ok(Criterias(paramSearch, start.value, length.value, sorted.value.defs, sorted.value.sorting, draw.value));
  }

  /** The first loop of getFromRequest: one definition per column index. */
  method BuildColumnDefs(req: Request, columnNumber: nat) returns (r: Result<seq<ColumnDef>>)
    ensures r == Columns(req, columnNumber)
  {
    var columnDefs: seq<ColumnDef> := [];
    var i := 0;
    while i < columnNumber
      invariant 0 <= i <= columnNumber
      invariant Columns(req, i) == Ok(columnDefs)
    {
      var columnDef := ColumnDef(None, false, false, false, false, None, None, None, None, None);
      columnDef := columnDef.(name := Parameter(req, ColumnKey(i, "[data]")));
      columnDef := columnDef.(filterable := ParseBoolean(Parameter(req, ColumnKey(i, "[searchable]"))));
      columnDef := columnDef.(sortable := ParseBoolean(Parameter(req, ColumnKey(i, "[orderable]"))));
      columnDef := columnDef.(regex := Parameter(req, ColumnKey(i, "[search][regex]")));
      var searchTerm := Parameter(req, ColumnKey(i, "[search][value]"));
      var notBlank := IsNotBlank(searchTerm);
      if notBlank {
        columnDef := columnDef.(filtered := true);
        var split := SplitSearchAsWritten(searchTerm.value);
        if split.Err? {
          r := Err(split.error);
          ColumnsErr(req, i + 1, columnNumber);
          return;
        }
        columnDef := columnDef.(search := split.value.search, searchFrom := split.value.searchFrom,
                                searchTo := split.value.searchTo);
      }
      columnDefs := columnDefs + [columnDef];
      i := i + 1;
    }
    r := Ok(columnDefs);
  }

  /** The second loop of getFromRequest: order[i] for every i below the
      column count. */
  method BuildSorting(req: Request, columnNumber: nat, columnDefs: seq<ColumnDef>) returns (r: Result<SortState>)
    ensures r == Sorting(req, columnNumber, columnDefs)
  {
    var defs := columnDefs;
    var sortingColumnDefs: seq<nat> := [];
    var i := 0;
    while i < columnNumber
      invariant 0 <= i <= columnNumber
      invariant Sorting(req, i, columnDefs) == Ok(SortState(defs, sortingColumnDefs))
    {
      var paramSortedCol := Parameter(req, OrderKey(i, "[column]"));
      var notBlank := IsNotBlank(paramSortedCol);
      if notBlank {
        var sortedCol := ParseInt(paramSortedCol.value);
        if sortedCol.Err? {
          r := Err(sortedCol.error);
          SortingErr(req, i + 1, columnNumber, columnDefs);
          return;
        }
        if sortedCol.value < 0 || sortedCol.value >= |defs| {
          r := Err(IndexOutOfBounds(sortedCol.value));
          SortingErr(req, i + 1, columnNumber, columnDefs);
          return;
        }
        var k: nat := sortedCol.value;
        var sortedColDirection := Parameter(req, OrderKey(i, "[dir]"));
        var hasDirection := IsNotBlank(sortedColDirection);
        if hasDirection {
          var direction := DirectionOf(sortedColDirection.value);
          if direction.Err? {
            r := Err(direction.error);
            SortingErr(req, i + 1, columnNumber, columnDefs);
            return;
          }
          defs := defs[k := defs[k].(sortDirection := Some(direction.value))];
        }
        sortingColumnDefs := sortingColumnDefs + [k];
      }
      i := i + 1;
    }
    r := Ok(SortState(defs, sortingColumnDefs));
  }

  /** `isNotBlank(p) ? Integer.parseInt(p) : -1`. */
  method ParseIntParameter(req: Request, name: string) returns (r: Result<int>)
    ensures r == IntParameter(req, name)
  {
    var p := Parameter(req, name);
    var notBlank := IsNotBlank(p);
    if notBlank {
      r := ParseInt(p.value);
    } else {
      r := Ok(-1);
    }
  }
  // ---------------------------------------------------------------------
  // What the parsed criteria hold
  // ---------------------------------------------------------------------

  /** Column i as the request describes it: the name from [data], the flags
      from [searchable] and [orderable] (false when absent), the regex, and
      the range split of a non-blank search term, which marks the column
      filtered; a blank term leaves it unfiltered with no search values. It
      fails exactly on a term of two or more "~". */
  lemma ColumnDefinition(req: Request, i: nat)
    ensures var term := Parameter(req, ColumnKey(i, "[search][value]"));
            ColumnAt(req, i).Err? <==> NotBlank(term) && |term.value| >= 2 && AllTildes(term.value)
    ensures ColumnAt(req, i).Ok? ==>
              var d := ColumnAt(req, i).value;
              var term := Parameter(req, ColumnKey(i, "[search][value]"));
              d.name == Parameter(req, ColumnKey(i, "[data]"))
              && d.filterable == ParseBoolean(Parameter(req, ColumnKey(i, "[searchable]")))
              && d.sortable == ParseBoolean(Parameter(req, ColumnKey(i, "[orderable]")))
              && d.regex == Parameter(req, ColumnKey(i, "[search][regex]"))
              && !d.sorted && d.sortDirection.None?
              && (d.filtered <==> NotBlank(term))
              && (!NotBlank(term) ==> d.search.None? && d.searchFrom.None? && d.searchTo.None?)
              && (NotBlank(term) ==> SearchTerms(d.search, d.searchFrom, d.searchTo) == SplitSearchAsWritten(term.value).value)
  {
    var term := Parameter(req, ColumnKey(i, "[search][value]"));
    if NotBlank(term) {
      SplitSearchFailure(term.value);
    }
  }

  /** A column searched with "~" alone is filtered, yet its empty search
      value is blank, so it does not make hasOneFilteredColumn true. */
  lemma TildeOnlyColumn(req: Request, i: nat)
    requires Parameter(req, ColumnKey(i, "[search][value]")) == Some("~")
    ensures ColumnAt(req, i).Ok? && ColumnAt(req, i).value.filtered && !Filtered(ColumnAt(req, i).value)
  {
    assert !IsWhitespace('~');
    assert "~"[0] == '~';
    assert NotBlank(Some("~"));
    assert SplitSearchAsWritten("~") == Ok(SearchTerms(Some(""), None, None));
    assert !NotBlank(Some(""));
  }

  /** The column indexes order[0..n-1] name, in order. */
  function RequestedSorts(req: Request, n: nat): seq<int> {
    if n == 0 then []
    else
      var column := Parameter(req, OrderKey(n - 1, "[column]"));
      RequestedSorts(req, n - 1)
      + (if NotBlank(column) && ParseInt(column.value).Ok? then [ParseInt(column.value).value] else [])
  }

  /** The direction given by the last of order[0..n-1] that names column k
      with a non-blank direction. */
  function LastDirection(req: Request, n: nat, k: int): Option<SortDirection> {
    if n == 0 then None
    else
      var column := Parameter(req, OrderKey(n - 1, "[column]"));
      var dir := Parameter(req, OrderKey(n - 1, "[dir]"));
      if NotBlank(column) && ParseInt(column.value) == Ok(k) && NotBlank(dir) && DirectionOf(dir.value).Ok?
      then Some(DirectionOf(dir.value).value)
      else LastDirection(req, n - 1, k)
  }

  /** Sorting changes nothing but directions: the sorting list holds the
      requested indexes in order, all of them valid, and a column's
      direction is the one the last order entry naming it gives, because the
      entries share the column definitions. */
  lemma {:induction false} SortingFacts(req: Request, n: nat, defs: seq<ColumnDef>)
    requires Sorting(req, n, defs).Ok?
    ensures var st := Sorting(req, n, defs).value;
            |st.defs| == |defs|
            && (forall k :: 0 <= k < |defs| ==> st.defs[k] == defs[k].(sortDirection := st.defs[k].sortDirection))
            && (forall k :: 0 <= k < |defs| ==>
                  st.defs[k].sortDirection == (if LastDirection(req, n, k).Some? then LastDirection(req, n, k)
                                               else defs[k].sortDirection))
            && |st.sorting| == |RequestedSorts(req, n)|
            && (forall j :: 0 <= j < |st.sorting| ==> st.sorting[j] == RequestedSorts(req, n)[j] && st.sorting[j] < |defs|)
  {
    if n > 0 {
      SortingFacts(req, n - 1, defs);
      SortStepFacts(req, n - 1, Sorting(req, n - 1, defs).value);
    }
  }

  /** One order entry: only the direction of the column it names changes,
      and its index, when it has one, is appended to the sorting list. */
  lemma SortStepFacts(req: Request, i: nat, st: SortState)
    requires SortStep(req, i, st).Ok?
    requires forall j :: 0 <= j < |st.sorting| ==> st.sorting[j] < |st.defs|
    ensures var next := SortStep(req, i, st).value;
            var column := Parameter(req, OrderKey(i, "[column]"));
            var dir := Parameter(req, OrderKey(i, "[dir]"));
            |next.defs| == |st.defs|
            && (forall k :: 0 <= k < |st.defs| ==> next.defs[k] == st.defs[k].(sortDirection := next.defs[k].sortDirection))
            && (forall k :: 0 <= k < |st.defs| ==>
                  next.defs[k].sortDirection
                  == if NotBlank(column) && ParseInt(column.value) == Ok(k) && NotBlank(dir) && DirectionOf(dir.value).Ok?
                     then Some(DirectionOf(dir.value).value) else st.defs[k].sortDirection)
            && next.sorting == st.sorting + (if NotBlank(column) && ParseInt(column.value).Ok? then [ParseInt(column.value).value] else [])
            && (forall j :: 0 <= j < |next.sorting| ==> next.sorting[j] < |st.defs|)
  {
  }

  /** What getFromRequest returns: the paging values (-1 when blank), the
      global search, one definition per column in index order carrying the
      direction of the last order entry that names it, and the requested
      sorting indexes in order. */
  lemma {:induction false} CriteriasOfRequest(request: Option<Request>)
    ensures request.None? ==> FromRequest(request) == Err(IllegalArgument("The HTTP request cannot be null"))
    ensures FromRequest(request).Ok? ==>
              var req := request.value;
              var c := FromRequest(request).value;
              var n := ColumnNumber(req.parameterNames).value;
              ColumnNumber(req.parameterNames).Ok?
              && c.search == Parameter(req, SearchParam)
              && IntParameter(req, DrawParam) == Ok(c.draw)
              && IntParameter(req, StartParam) == Ok(c.start)
              && IntParameter(req, LengthParam) == Ok(c.length)
              && |c.columnDefs| == n
              && (forall i :: 0 <= i < n ==>
                    ColumnAt(req, i).Ok?
                    && c.columnDefs[i] == ColumnAt(req, i).value.(sortDirection := LastDirection(req, n, i)))
              && |c.sortingColumns| == |RequestedSorts(req, n)|
              && (forall j :: 0 <= j < |c.sortingColumns| ==>
                    c.sortingColumns[j] == RequestedSorts(req, n)[j] && c.sortingColumns[j] < n)
  {
    if request.Some? && FromRequest(request).Ok? {
      var req := request.value;
      var n := ColumnNumber(req.parameterNames).value;
      var defs := Columns(req, n).value;
      SortingFacts(req, n, defs);
    }
  }

  /** A request without parameters: no search, -1 for draw, start and
      length, and no columns. */
  lemma EmptyRequest()
    ensures FromRequest(Some(Request([], map[]))) == Ok(Criterias(None, -1, -1, [], [], -1))
  {
  }

  /** Blank paging parameters give -1. */
  lemma BlankParameterIsMinusOne(req: Request, name: string)
    requires !NotBlank(Parameter(req, name))
    ensures IntParameter(req, name) == Ok(-1)
  {
  }

  predicate Filtered(d: ColumnDef) {
    NotBlank(d.search) || NotBlank(d.searchFrom) || NotBlank(d.searchTo)
  }

  /** hasOneFilterableColumn. */
  method HasOneFilterableColumn(c: Criterias) returns (b: bool)
    ensures b <==> exists k :: 0 <= k < |c.columnDefs| && c.columnDefs[k].filterable
  {
    var i := 0;
    while i < |c.columnDefs|
      invariant 0 <= i <= |c.columnDefs|
      invariant forall k :: 0 <= k < i ==> !c.columnDefs[k].filterable
    {
      if c.columnDefs[i].filterable {
        return true;
      }
      i := i + 1;
    }
    return false;
  }

  /** hasOneFilteredColumn: some column has a non-blank search, lower bound
      or upper bound. */
  method HasOneFilteredColumn(c: Criterias) returns (b: bool)
    ensures b <==> exists k :: 0 <= k < |c.columnDefs| && Filtered(c.columnDefs[k])
  {
    var i := 0;
    while i < |c.columnDefs|
      invariant 0 <= i <= |c.columnDefs|
      invariant forall k :: 0 <= k < i ==> !Filtered(c.columnDefs[k])
    {
      var d := c.columnDefs[i];
      var s1 := IsNotBlank(d.search);
      var s2 := IsNotBlank(d.searchFrom);
      var s3 := IsNotBlank(d.searchTo);
      if s1 || s2 || s3 {
        return true;
      }
      i := i + 1;
    }
    return false;
  }

  /** hasOneSortedColumn. */
  predicate HasOneSortedColumn(c: Criterias) {
    |c.sortingColumns| > 0
  }

  /** getFromRequest never calls ColumnDef.setSorted: every column
      definition it returns has its sorted flag false, even one that an
      order parameter names. */
  lemma SortedFlagNeverSet(request: Option<Request>)
    requires FromRequest(request).Ok?
    ensures var c := FromRequest(request).value;
            forall i :: 0 <= i < |c.columnDefs| ==> !c.columnDefs[i].sorted
  {
    CriteriasOfRequest(request);
  }

  /** The parsed criteria have a sorted column exactly when some order[i]
      below the column count names a column. */
  lemma SortedColumnOfRequest(request: Option<Request>)
    requires FromRequest(request).Ok?
    ensures var req := request.value;
            var n := ColumnNumber(req.parameterNames).value;
            HasOneSortedColumn(FromRequest(request).value) <==>
              exists i :: 0 <= i < n && NotBlank(Parameter(req, OrderKey(i, "[column]")))
  {
    CriteriasOfRequest(request);
    var req := request.value;
    var n := ColumnNumber(req.parameterNames).value;
    var defs := Columns(req, n).value;
    RequestedSortsNonEmpty(req, n, defs);
  }

  lemma {:induction false} RequestedSortsNonEmpty(req: Request, n: nat, defs: seq<ColumnDef>)
    requires Sorting(req, n, defs).Ok?
    ensures |RequestedSorts(req, n)| > 0 <==> exists i :: 0 <= i < n && NotBlank(Parameter(req, OrderKey(i, "[column]")))
  {
    if n > 0 {
      RequestedSortsNonEmpty(req, n - 1, defs);
    }
  }
}
