/** util/StringUtils: blank tests, capitalisation, joining, character search
    and whitespace removal. A Java `null` string is `None`. */
module StringUtils {
  import opened Wrappers
  import opened JavaString

  /** What isBlank answers: null, empty, or whitespace only. */
  predicate Blank(s: Option<string>) {
    s.None? || forall i :: 0 <= i < |s.value| ==> IsWhitespace(s.value[i])
  }

  predicate NotBlank(s: Option<string>) {
    !Blank(s)
  }

  /** isBlank: scans for the first non-whitespace character. */
  method IsBlank(str: Option<string>) returns (b: bool)
    ensures b == Blank(str)
    ensures b <==> str.None? || |str.value| == 0 || forall i :: 0 <= i < |str.value| ==> IsWhitespace(str.value[i])
  {
    if str.None? || |str.value| == 0 {
      return true;
    }
    var s := str.value;
    var i := 0;
    while i < |s|
      invariant 0 <= i <= |s|
      invariant forall k :: 0 <= k < i ==> IsWhitespace(s[k])
    {
      if !IsWhitespace(s[i]) {
        return false;
      }
      i := i + 1;
    }
    return true;
  }

  /** isNotBlank is the negation of isBlank. */
  method IsNotBlank(str: Option<string>) returns (b: bool)
    ensures b <==> str.Some? && exists i :: 0 <= i < |str.value| && !IsWhitespace(str.value[i])
  {
    var blank := IsBlank(str);
    b := !blank;
  }

  /** hasLength: non-null and not empty; whitespace counts as length. */
  predicate HasLength(s: Option<string>) {
    s.Some? && |s.value| > 0
  }

  /** A string with length can still be blank, and a string without length
      is always blank. */
  lemma HasLengthVersusBlank(s: Option<string>)
    ensures !HasLength(s) ==> Blank(s)
    ensures NotBlank(s) ==> HasLength(s)
    ensures HasLength(Some(" ")) && Blank(Some(" "))
  {
    assert IsWhitespace(" "[0]);
  }

  /** capitalize: the first character goes through Character.toTitleCase
      (upper case for the ASCII letters); null stays null. */
  function Capitalize(str: Option<string>): (r: Option<string>)
    ensures r.None? <==> str.None?
    ensures r.Some? ==> |r.value| == |str.value|
    ensures r.Some? && |str.value| > 0 ==> r.value[1..] == str.value[1..] && r.value[0] == ToUpperChar(str.value[0])
  {
    if str.None? then None
    else if |str.value| == 0 then str
    else Some([ToUpperChar(str.value[0])] + str.value[1..])
  }

  /** uncapitalize: the first character goes through Character.toLowerCase. */
  function Uncapitalize(str: Option<string>): (r: Option<string>)
    ensures r.None? <==> str.None?
    ensures r.Some? ==> |r.value| == |str.value|
    ensures r.Some? && |str.value| > 0 ==> r.value[1..] == str.value[1..] && r.value[0] == ToLowerChar(str.value[0])
  {
    if str.None? then None
    else if |str.value| == 0 then str
    else Some([ToLowerChar(str.value[0])] + str.value[1..])
  }

  /** Only the first character is touched: capitalising twice is capitalising
      once, uncapitalize undoes capitalize on a string that starts in lower
      case, and the empty string is a fixed point of both. */
  lemma CapitalizeLaws(str: Option<string>)
    ensures Capitalize(Capitalize(str)) == Capitalize(str)
    ensures Uncapitalize(Uncapitalize(str)) == Uncapitalize(str)
    ensures str.Some? && |str.value| > 0 && 'a' <= str.value[0] <= 'z' ==>
              Uncapitalize(Capitalize(str)) == str
    ensures Capitalize(Some("")) == Some("") && Uncapitalize(Some("")) == Some("")
  {
    if str.Some? && |str.value| > 0 {
      var c := str.value[0];
      assert Capitalize(str).value[0] == ToUpperChar(c);
      assert Capitalize(Capitalize(str)).value == Capitalize(str).value;
      assert Uncapitalize(Uncapitalize(str)).value == Uncapitalize(str).value;
      if 'a' <= c <= 'z' {
        assert Uncapitalize(Capitalize(str)).value == str.value;
      }
    }
  }

  /** String.valueOf(Object): a null element is appended as "null". */
  function ValueOf(x: Option<string>): string {
    if x.None? then "null" else x.value
  }

  /** The text join builds: the elements in order with the separator between
      each pair. */
  function Joined(target: seq<Option<string>>, separator: string): string {
    if |target| == 0 then ""
    else if |target| == 1 then ValueOf(target[0])
    else Joined(target[..|target| - 1], separator) + separator + ValueOf(target[|target| - 1])
  }

  /** join(Object[]) and join(Iterable): the first element, then separator
      and element for each further one. */
  method Join(target: seq<Option<string>>, separator: string) returns (r: string)
    ensures r == Joined(target, separator)
  {
    var sb := "";
    if |target| > 0 {
      sb := sb + ValueOf(target[0]);
      var i := 1;
      while i < |target|
        invariant 1 <= i <= |target|
        invariant sb == Joined(target[..i], separator)
      {
        assert target[..i + 1][..i] == target[..i];
        sb := sb + separator;
        sb := sb + ValueOf(target[i]);
        i := i + 1;
      }
      assert target[..|target|] == target;
    }
    r := sb;
  }

  /** The joined text is exactly the element texts plus n - 1 separators. */
  function TotalLength(target: seq<Option<string>>): nat {
    if |target| == 0 then 0 else TotalLength(target[..|target| - 1]) + |ValueOf(target[|target| - 1])|
  }

  lemma {:induction false} JoinedLength(target: seq<Option<string>>, separator: string)
    requires |target| >= 1
    ensures |Joined(target, separator)| == TotalLength(target) + (|target| - 1) * |separator|
  {
    if |target| > 1 {
      var n, k := |target|, |separator|;
      JoinedLength(target[..n - 1], separator);
      assert (n - 1) * k == (n - 2) * k + k;
    }
  }

  /** With a one-character separator that no element contains, splitting the
      joined text on that character gives the elements back. */
  lemma {:induction false} JoinedThenPieces(target: seq<string>, c: char)
    requires |target| >= 1
    requires forall i :: 0 <= i < |target| ==> c !in target[i]
    ensures Pieces(Joined(Wrap(target), [c]), c) == target
  {
    if |target| == 1 {
      PiecesOfPlain(target[0], c);
    } else {
      var init := target[..|target| - 1];
      var last := target[|target| - 1];
      assert Wrap(target)[..|target| - 1] == Wrap(init);
      JoinedThenPieces(init, c);
      PiecesOfPlain(last, c);
      PiecesAppend(Joined(Wrap(init), [c]), last, c);
      assert target == init + [last];
    }
  }

  function Wrap(xs: seq<string>): (r: seq<Option<string>>)
    ensures |r| == |xs| && forall i :: 0 <= i < |xs| ==> r[i] == Some(xs[i])
  {
    seq(|xs|, i requires 0 <= i < |xs| => Some(xs[i]))
  }

  lemma {:induction false} PiecesOfPlain(s: string, c: char)
    requires c !in s
    ensures Pieces(s, c) == [s]
    decreases |s|
  {
    if |s| > 0 {
      PiecesOfPlain(s[1..], c);
      assert [s[0]] + s[1..] == s;
    }
  }

  lemma {:induction false} PiecesAppend(a: string, b: string, c: char)
    requires c !in b
    ensures Pieces(a + [c] + b, c) == Pieces(a, c) + [b]
    decreases |a|
  {
    if |a| == 0 {
      assert a + [c] + b == [c] + b;
      assert ([c] + b)[1..] == b;
      PiecesOfPlain(b, c);
    } else {
      assert (a + [c] + b)[1..] == a[1..] + [c] + b;
      PiecesAppend(a[1..], b, c);
    }
  }

  /** Does some character of `str` occur among `searchChars`? */
  predicate SharesChar(str: string, searchChars: seq<char>) {
    exists i, j :: 0 <= i < |str| && 0 <= j < |searchChars| && str[i] == searchChars[j]
  }

  /** containsAny: nested scan; a null string is dereferenced and fails. */
  method ContainsAny(str: Option<string>, searchChars: seq<char>) returns (r: Result<bool>)
    ensures str.None? ==> r.Err? && r.error.NullPointer?
    ensures str.Some? ==> r == Ok(SharesChar(str.value, searchChars))
  {
    if str.None? {
      return Err(NullPointer("str"));
    }
    var s := str.value;
    var i := 0;
    while i < |s|
      invariant 0 <= i <= |s|
      invariant forall a, b :: 0 <= a < i && 0 <= b < |searchChars| ==> s[a] != searchChars[b]
    {
      var j := 0;
      while j < |searchChars|
        invariant 0 <= j <= |searchChars|
        invariant forall b :: 0 <= b < j ==> s[i] != searchChars[b]
      {
        if searchChars[j] == s[i] {
          return Ok(true);
        }
        j := j + 1;
      }
      i := i + 1;
    }
    return Ok(false);
  }

  /** The non-whitespace characters of `s`, in their original order. */
  function WithoutWhitespace(s: string): (r: string)
    ensures |r| <= |s|
    ensures forall i :: 0 <= i < |r| ==> !IsWhitespace(r[i])
  {
    if |s| == 0 then ""
    else if IsWhitespace(s[|s| - 1]) then WithoutWhitespace(s[..|s| - 1])
    else WithoutWhitespace(s[..|s| - 1]) + [s[|s| - 1]]
  }

  /** Removing whitespace keeps a string that has none unchanged. */
  lemma {:induction false} WithoutWhitespaceIdempotent(s: string)
    ensures WithoutWhitespace(WithoutWhitespace(s)) == WithoutWhitespace(s)
  {
    NoWhitespaceFixed(WithoutWhitespace(s));
  }

  lemma {:induction false} NoWhitespaceFixed(s: string)
    requires forall i :: 0 <= i < |s| ==> !IsWhitespace(s[i])
    ensures WithoutWhitespace(s) == s
  {
    if |s| > 0 {
      NoWhitespaceFixed(s[..|s| - 1]);
    }
  }

  /** trimAllWhitespace: deletes every whitespace character from a builder
      in place; null and "" come back unchanged. */
  method TrimAllWhitespace(str: Option<string>) returns (r: Option<string>)
    ensures !HasLength(str) ==> r == str
    ensures HasLength(str) ==> r == Some(WithoutWhitespace(str.value))
  {
    if !HasLength(str) {
      return str;
    }
    var s := str.value;
    var sb := s;
    var index := 0;
    ghost var consumed := 0;
    while |sb| > index
      invariant 0 <= index <= |sb| && 0 <= consumed <= |s|
      invariant sb[..index] == WithoutWhitespace(s[..consumed])
      invariant sb[index..] == s[consumed..]
      decreases |sb| - index
    {
      assert s[..consumed + 1][..consumed] == s[..consumed];
      assert sb[index] == sb[index..][0] == s[consumed];
      assert s[consumed + 1..] == s[consumed..][1..] == sb[index..][1..] == sb[index + 1..];
      if IsWhitespace(sb[index]) {
        sb := sb[..index] + sb[index + 1..];
      } else {
        index := index + 1;
      }
      consumed := consumed + 1;
    }
    assert |sb[index..]| == 0;
    assert consumed == |s|;
    assert s[..consumed] == s;
    assert sb == sb[..index];
    return Some(sb);
  }
}
