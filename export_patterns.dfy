/** The four case-insensitive patterns `export\.(.*?)\.class`, `.label`,
    `.fileName` and `.mimeType` that DatatableOptions.findByName,
    TableConfig.findByPropertyName and ExportFormatProcessor match against
    an option name, with Matcher.find and group(1) written out. */
module ExportPatterns {
  import opened Wrappers
  import opened JavaString

  /** ExportFormatProcessor.ExportConfToken: which field of an export
      configuration a key sets. */
  datatype Token = CLASS | LABEL | FILENAME | MIMETYPE

  const Prefix: string := "export."

  /** The literal that closes the format in each pattern. */
  function Suffix(t: Token): (r: string)
    ensures |r| > 1 && r[0] == '.'
    ensures forall i :: 1 <= i < |r| ==> r[i] != '.'
  {
    match t
    case CLASS => ".class"
    case LABEL => ".label"
    case FILENAME => ".fileName"
    case MIMETYPE => ".mimeType"
  }

  /** The REGEX_EXPORT_* constant. */
  function Regex(t: Token): string {
    "export\\.(.*?)\\" + Suffix(t)
  }

  /** The characters `.` does not match. */
  predicate LineTerminator(c: char) {
    c == '\n' || c == '\r' || c == '\U{0085}' || c == '\U{2028}' || c == '\U{2029}'
  }

  /** `lit` occurs at position i of s, ignoring the case of ASCII letters. */
  predicate OccursAt(s: string, i: int, lit: string) {
    0 <= i && i + |lit| <= |s| && EqualsIgnoreCase(s[i..i + |lit|], lit)
  }

  /** Where the reluctant group `(.*?)` opened at `from` ends: the first
      position from which the suffix follows, the group growing only over
      characters `.` matches. */
  function GroupEnd(s: string, from: nat, suffix: string): (r: Option<nat>)
    requires from <= |s|
    ensures r.Some? ==> from <= r.value && OccursAt(s, r.value, suffix)
    ensures r.Some? ==> forall k :: from <= k < r.value ==> !LineTerminator(s[k])
    ensures r.Some? ==> forall k :: from <= k < r.value ==> !OccursAt(s, k, suffix)
    decreases |s| - from
  {
    if from + |suffix| > |s| then None
    else if OccursAt(s, from, suffix) then Some(from)
    else if LineTerminator(s[from]) then None
    else GroupEnd(s, from + 1, suffix)
  }

  /** The pattern matches at i: `export.` occurs there and its group can be
      closed. */
  predicate MatchAt(s: string, i: nat, t: Token) {
    i + |Prefix| <= |s| && OccursAt(s, i, Prefix) && GroupEnd(s, i + |Prefix|, Suffix(t)).Some?
  }

  /** Where Matcher.find, scanning from `from`, finds the pattern: the
      leftmost start at which it matches. */
  function FindFrom(s: string, from: nat, t: Token): (r: Option<nat>)
    requires from <= |s|
    ensures r.Some? ==> from <= r.value && MatchAt(s, r.value, t)
    decreases |s| - from
  {
    if from + |Prefix| > |s| then None
    else if MatchAt(s, from, t) then Some(from)
    else FindFrom(s, from + 1, t)
  }

  /** Where the pattern does not match, the scan moves on. */
  lemma FindFromStep(s: string, from: nat, t: Token)
    requires from + |Prefix| <= |s| && !MatchAt(s, from, t)
    ensures FindFrom(s, from, t) == FindFrom(s, from + 1, t)
  {
  }

  /** The match found is the leftmost: no earlier occurrence of `export.`
      has a group that can be closed. */
  lemma {:induction false} FindFromLeftmost(s: string, from: nat, t: Token)
    requires from <= |s|
    ensures var r := FindFrom(s, from, t);
            r.Some? ==> forall i :: from <= i < r.value ==> !MatchAt(s, i, t)
    decreases |s| - from
  {
    if from + |Prefix| <= |s| && !MatchAt(s, from, t) {
      FindFromLeftmost(s, from + 1, t);
      var r := FindFrom(s, from + 1, t);
      assert FindFrom(s, from, t) == r;
      if r.Some? {
        forall i | from <= i < r.value
          ensures !MatchAt(s, i, t)
        {
          if i > from {
            assert from + 1 <= i < r.value;
          }
        }
      }
    }
  }

  /** `Pattern.compile(Regex(t), CASE_INSENSITIVE).matcher(s).find()` and,
      when it succeeds, `group(1)`: the text between `export.` and the
      first suffix after it. */
  function Find(s: string, t: Token): Option<string> {
    var start := FindFrom(s, 0, t);
    if start.None? then None
    else
      var i := start.value;
      var end := GroupEnd(s, i + |Prefix|, Suffix(t)).value;
      Some(s[i + |Prefix|..end])
  }

  /** A key of the documented form: `export.` then a format. */
  predicate PlainFormat(f: string) {
    forall k :: 0 <= k < |f| ==> f[k] != '.' && !LineTerminator(f[k])
  }

  lemma LowerDot(c: char)
    ensures ToLowerChar(c) == '.' <==> c == '.'
  {
  }

  /** Where a literal occurs, its dots are dots of s. */
  lemma DotInOccurrence(s: string, i: int, lit: string, j: int)
    requires OccursAt(s, i, lit) && 0 <= j < |lit| && lit[j] == '.'
    ensures s[i + j] == '.'
  {
    assert ToLower(s[i..i + |lit|])[j] == ToLower(lit)[j];
    LowerDot(s[i + j]);
  }

  /** Without a dot after `from`, no group can be closed. */
  lemma {:induction false} NoGroupWithoutDot(s: string, from: nat, suffix: string)
    requires from <= |s| && |suffix| > 0 && suffix[0] == '.'
    requires forall k :: from <= k < |s| ==> s[k] != '.'
    ensures GroupEnd(s, from, suffix).None?
    decreases |s| - from
  {
    if from + |suffix| > |s| {
    } else {
      if OccursAt(s, from, suffix) {
        DotInOccurrence(s, from, suffix, 0);
      }
      if !LineTerminator(s[from]) {
        NoGroupWithoutDot(s, from + 1, suffix);
      }
    }
  }

  /** The literals of two different tokens differ even ignoring case. */
  lemma SuffixesDiffer(t: Token, u: Token)
    requires t != u
    ensures ToLowerChar(Suffix(t)[1]) != ToLowerChar(Suffix(u)[1])
  {
  }

  /** The key "export." + f + suffix, taken apart. */
  lemma KeyParts(f: string, t: Token, s: string)
    requires s == Prefix + f + Suffix(t)
    ensures |s| == |Prefix| + |f| + |Suffix(t)|
    ensures s[..|Prefix|] == Prefix && s[|Prefix|..|Prefix| + |f|] == f
    ensures s[|Prefix| + |f|..] == Suffix(t)
    ensures forall k :: 0 <= k < |Prefix| ==> s[k] == Prefix[k]
    ensures forall k :: 0 <= k < |f| ==> s[|Prefix| + k] == f[k]
    ensures forall k :: 0 <= k < |Suffix(t)| ==> s[|Prefix| + |f| + k] == Suffix(t)[k]
  {
  }

  /** Past the format, the key holds a single dot, at the format's end. */
  lemma {:induction false} DotsOfKey(f: string, t: Token, s: string, k: int)
    requires s == Prefix + f + Suffix(t) && PlainFormat(f)
    requires 0 <= k < |s| && s[k] == '.'
    ensures k == |Prefix| - 1 || k == |Prefix| + |f|
  {
    KeyParts(f, t, s);
    if k < |Prefix| {
      assert Prefix[k] == '.';
    } else if k >= |Prefix| + |f| {
      assert Suffix(t)[k - |Prefix| - |f|] == '.';
    } else {
      assert false;
    }
  }

  /** At the end of the format, the suffix of the key's own token follows,
      and no other token's suffix can be found from there. */
  lemma GroupAtFormatEnd(f: string, t: Token, u: Token, s: string)
    requires s == Prefix + f + Suffix(t) && PlainFormat(f)
    ensures GroupEnd(s, |Prefix| + |f|, Suffix(u)) == if u == t then Some(|Prefix| + |f|) else None
  {
    KeyParts(f, t, s);
    var end := |Prefix| + |f|;
    if u == t {
      assert s[end..end + |Suffix(u)|] == Suffix(t);
    } else {
      if OccursAt(s, end, Suffix(u)) {
        SuffixAtFormatEnd(f, t, u, s);
      }
      forall k | end + 1 <= k < |s|
        ensures s[k] != '.'
      {
        if s[k] == '.' {
          DotsOfKey(f, t, s, k);
        }
      }
      if end + |Suffix(u)| <= |s| {
        NoGroupWithoutDot(s, end + 1, Suffix(u));
      }
    }
  }

  /** Another token's suffix does not occur where the key's suffix starts. */
  lemma SuffixAtFormatEnd(f: string, t: Token, u: Token, s: string)
    requires s == Prefix + f + Suffix(t) && t != u
    ensures !OccursAt(s, |Prefix| + |f|, Suffix(u))
  {
    var end := |Prefix| + |f|;
    assert s[end..] == Suffix(t);
    if OccursAt(s, end, Suffix(u)) {
      var w := s[end..end + |Suffix(u)|];
      assert ToLower(w)[1] == ToLower(Suffix(u))[1];
      assert w[1] == s[end..][1];
      SuffixesDiffer(t, u);
    }
  }

  /** Inside the format the group keeps growing. */
  lemma InsideFormat(f: string, t: Token, u: Token, s: string, k: nat)
    requires s == Prefix + f + Suffix(t) && PlainFormat(f)
    requires |Prefix| <= k < |Prefix| + |f|
    ensures !LineTerminator(s[k]) && !OccursAt(s, k, Suffix(u))
  {
    KeyParts(f, t, s);
    assert s[k] == f[k - |Prefix|];
    if OccursAt(s, k, Suffix(u)) {
      DotInOccurrence(s, k, Suffix(u), 0);
    }
  }

  /** Inside the format, the group ends where it would end one character
      later. */
  lemma GroupGrows(f: string, t: Token, u: Token, s: string, k: nat)
    requires s == Prefix + f + Suffix(t) && PlainFormat(f)
    requires |Prefix| <= k < |Prefix| + |f|
    ensures GroupEnd(s, k, Suffix(u)) == if k + |Suffix(u)| > |s| then None else GroupEnd(s, k + 1, Suffix(u))
  {
    InsideFormat(f, t, u, s, k);
  }

  /** The group that opens after `export.` in a key of the documented form
      ends at the format's end for the key's own token, and never for
      another token. */
  lemma {:induction false} GroupOfKey(f: string, t: Token, u: Token, s: string, from: nat)
    requires s == Prefix + f + Suffix(t) && PlainFormat(f)
    requires |Prefix| <= from <= |Prefix| + |f|
    ensures GroupEnd(s, from, Suffix(u)) == if u == t then Some(|Prefix| + |f|) else None
    decreases |s| - from
  {
    if from < |Prefix| + |f| {
      GroupOfKey(f, t, u, s, from + 1);
      GroupGrows(f, t, u, s, from);
    } else {
      GroupAtFormatEnd(f, t, u, s);
    }
  }

  /** The pattern does not match after the first character of such a key:
      an `export.` there ends with the dot closing the format, and no dot
      follows to close a group. */
  lemma NoMatchAfterStart(f: string, t: Token, u: Token, s: string, from: nat)
    requires s == Prefix + f + Suffix(t) && PlainFormat(f)
    requires 1 <= from <= |s|
    ensures !MatchAt(s, from, u)
  {
    if from + |Prefix| <= |s| && OccursAt(s, from, Prefix) {
      DotInOccurrence(s, from, Prefix, |Prefix| - 1);
      DotsOfKey(f, t, s, from + |Prefix| - 1);
      forall k | from + |Prefix| <= k < |s|
        ensures s[k] != '.'
      {
        if s[k] == '.' {
          DotsOfKey(f, t, s, k);
        }
      }
      NoGroupWithoutDot(s, from + |Prefix|, Suffix(u));
    }
  }

  /** No match starts after the first character of such a key. */
  lemma {:induction false} NoLaterMatch(f: string, t: Token, u: Token, s: string, from: nat)
    requires s == Prefix + f + Suffix(t) && PlainFormat(f)
    requires 1 <= from <= |s|
    ensures FindFrom(s, from, u).None?
    decreases |s| - from
  {
    if from + |Prefix| <= |s| {
      NoMatchAfterStart(f, t, u, s, from);
      FindFromStep(s, from, u);
      NoLaterMatch(f, t, u, s, from + 1);
    }
  }

  /** A key `export.<format><suffix>` whose format has no dot yields that
      format for its own token and matches no other token: exactly one
      pattern applies to it. */
  lemma FormatOfKey(f: string, t: Token, u: Token)
    requires PlainFormat(f)
    ensures Find(Prefix + f + Suffix(t), u) == if u == t then Some(f) else None
  {
    var s := Prefix + f + Suffix(t);
    assert s[0..|Prefix|] == Prefix;
    assert OccursAt(s, 0, Prefix);
    GroupOfKey(f, t, u, s, |Prefix|);
    if u != t {
      NoLaterMatch(f, t, u, s, 1);
    } else {
      assert s[|Prefix|..|Prefix| + |f|] == f;
    }
  }
}
