/** The i18n part of the configuration generators: the table's messages
    whose key is a known DataTables message are sent under that message's
    DataTables name, grouped into a paginate sub-map, an aria sub-map and
    the rest. */
module I18nConfs {
  import opened Wrappers
  import opened JavaString
  import opened StringUtils
  import opened ConfigValues

  /** One DTMessages constant: the key users set the message under and the
      name DataTables reads it from. */
  datatype Message = Message(propertyName: string, realName: string)

  /** DTMessages.values(), in declaration order, and the real names of its
      PAGINATE and ARIA constants. The DTMessages class is not part of this
      model; its constants are a parameter. */
  datatype Catalogue = Catalogue(messages: seq<Message>, paginate: string, aria: string)

  /** The first constant whose property name is `key`. */
  function Find(ms: seq<Message>, key: string): (r: Option<Message>)
    ensures r.Some? ==> r.value in ms && r.value.propertyName == key
    ensures r.None? ==> forall i :: 0 <= i < |ms| ==> ms[i].propertyName != key
  {
    if ms == [] then None
    else if ms[0].propertyName == key then Some(ms[0])
    else Find(ms[1..], key)
  }

  /** Whether a message is taken: the older generator also requires a
      value that is not blank. */
  predicate Accepted(value: string, skipBlank: bool) {
    !skipBlank || NotBlank(Some(value))
  }

  /** The inner loop over the constants, stopping at the first that
      matches. */
  method FindMessage(ms: seq<Message>, key: string, value: string, skipBlank: bool) returns (m: Option<Message>)
    ensures m == if Accepted(value, skipBlank) then Find(ms, key) else None
  {
    var i := 0;
    while i < |ms|
      invariant 0 <= i <= |ms|
      invariant Accepted(value, skipBlank) ==> Find(ms, key) == Find(ms[i..], key)
    {
      assert ms[i..][1..] == ms[i + 1..];
      if ms[i].propertyName == key && (!skipBlank || NotBlank(Some(value))) {
        return Some(ms[i]);
      }
      i := i + 1;
    }
    return None;
  }

  /** The three maps the loop fills. */
  datatype Groups = Groups(top: map<string, Value>, paginate: map<string, Value>, aria: map<string, Value>)

  /** Which map a message key goes to. */
  datatype Group = Top | Paginate | Aria

  function GroupOf(key: string): Group {
    if Contains(key, "paginate") then Paginate else if Contains(key, "aria") then Aria else Top
  }

  function Insert(g: Groups, key: string, name: string, v: Value): Groups {
    match GroupOf(key)
    case Paginate => g.(paginate := g.paginate[name := v])
    case Aria => g.(aria := g.aria[name := v])
    case Top => g.(top := g.top[name := v])
  }

  /** The matched constant of one message entry, if it is taken. */
  function Matched(entry: (string, string), cat: Catalogue, skipBlank: bool): Option<Message> {
    if Accepted(entry.1, skipBlank) then Find(cat.messages, entry.0) else None
  }

  /** The maps after the loop has seen `messages`, the entries of the
      message Properties in the order its entry set lists them. */
  function Grouped(messages: seq<(string, string)>, cat: Catalogue, skipBlank: bool): Groups
    decreases |messages|
  {
    if messages == [] then Groups(map[], map[], map[])
    else
      var g, e := Grouped(messages[..|messages| - 1], cat, skipBlank), messages[|messages| - 1];
      match Matched(e, cat, skipBlank)
      case None => g
      case Some(m) => Insert(g, e.0, m.realName, Str(e.1))
  }

  /** The language map: the ungrouped messages plus the paginate and aria
      maps under their real names when they are not empty. */
  function LanguageMap(g: Groups, cat: Catalogue): map<string, Value> {
    var l := if |g.paginate| > 0 then g.top[cat.paginate := Obj(g.paginate)] else g.top;
    if |g.aria| > 0 then l[cat.aria := Obj(g.aria)] else l
  }

  /** The language map a generator builds from the messages, or nothing
      when it is empty. */
  function Language(messages: seq<(string, string)>, cat: Catalogue, skipBlank: bool): Option<map<string, Value>> {
    var l := LanguageMap(Grouped(messages, cat, skipBlank), cat);
    if |l| > 0 then Some(l) else None
  }

  /** generateI18nConfiguration: the loop over the message entries, then the
      sub-maps, then the language map unless it is empty. */
  method GenerateLanguage(messages: seq<(string, string)>, cat: Catalogue, skipBlank: bool)
    returns (language: Option<map<string, Value>>)
    ensures language == Language(messages, cat, skipBlank)
  {
    var g := Groups(map[], map[], map[]);
    var n := 0;
    while n < |messages|
      invariant 0 <= n <= |messages|
      invariant g == Grouped(messages[..n], cat, skipBlank)
    {
      var entry := messages[n];
      assert messages[..n + 1][..n] == messages[..n];
      var m := FindMessage(cat.messages, entry.0, entry.1, skipBlank);
      if m.Some? {
        if Contains(entry.0, "paginate") {
          g := g.(paginate := g.paginate[m.value.realName := Str(entry.1)]);
        } else if Contains(entry.0, "aria") {
          g := g.(aria := g.aria[m.value.realName := Str(entry.1)]);
        } else {
          g := g.(top := g.top[m.value.realName := Str(entry.1)]);
        }
      }
      n := n + 1;
    }
    assert messages[..n] == messages;
    var l := g.top;
    if |g.paginate| > 0 {
      l := l[cat.paginate := Obj(g.paginate)];
    }
    if |g.aria| > 0 {
      l := l[cat.aria := Obj(g.aria)];
    }
    language := if |l| > 0 then Some(l) else None;
  }

  /** Some message is taken. */
  predicate AnyMatched(messages: seq<(string, string)>, cat: Catalogue, skipBlank: bool) {
    exists i :: 0 <= i < |messages| && Matched(messages[i], cat, skipBlank).Some?
  }

  function Size(g: Groups): nat {
    |g.top| + |g.paginate| + |g.aria|
  }

  /** The maps stay empty exactly when no message is taken. */
  lemma {:induction false} GroupsEmptyIffNoMatch(messages: seq<(string, string)>, cat: Catalogue, skipBlank: bool)
    ensures Size(Grouped(messages, cat, skipBlank)) == 0 <==> !AnyMatched(messages, cat, skipBlank)
    decreases |messages|
  {
    if messages != [] {
      var init := messages[..|messages| - 1];
      GroupsEmptyIffNoMatch(init, cat, skipBlank);
      if AnyMatched(init, cat, skipBlank) {
        var i :| 0 <= i < |init| && Matched(init[i], cat, skipBlank).Some?;
        assert messages[i] == init[i];
        InsertKeepsSize(messages, cat, skipBlank);
      }
      if !AnyMatched(messages, cat, skipBlank) {
        forall i | 0 <= i < |init| ensures Matched(init[i], cat, skipBlank).None? {
          assert messages[i] == init[i];
        }
      }
    }
  }

  /** Inserting never empties a map. */
  lemma InsertKeepsSize(messages: seq<(string, string)>, cat: Catalogue, skipBlank: bool)
    requires messages != []
    ensures Size(Grouped(messages, cat, skipBlank)) >= Size(Grouped(messages[..|messages| - 1], cat, skipBlank))
    ensures Matched(messages[|messages| - 1], cat, skipBlank).Some? ==> Size(Grouped(messages, cat, skipBlank)) > 0
  {
  }

  /** The language entry is written exactly when some message is taken;
      with the older generator's blank check, messages whose values are all
      blank write nothing. */
  lemma LanguageIffMatched(messages: seq<(string, string)>, cat: Catalogue, skipBlank: bool)
    ensures Language(messages, cat, skipBlank).Some? <==> AnyMatched(messages, cat, skipBlank)
    ensures skipBlank && (forall i :: 0 <= i < |messages| ==> !NotBlank(Some(messages[i].1))) ==>
              Language(messages, cat, skipBlank).None?
  {
    GroupsEmptyIffNoMatch(messages, cat, skipBlank);
    var g := Grouped(messages, cat, skipBlank);
    var l := if |g.paginate| > 0 then g.top[cat.paginate := Obj(g.paginate)] else g.top;
    assert |g.paginate| > 0 ==> cat.paginate in l;
    assert |g.top| > 0 ==> |l| > 0 by {
      if |g.top| > 0 {
        var x :| x in g.top;
        assert x in l;
      }
    }
    var l2 := LanguageMap(g, cat);
    assert |l| > 0 ==> |l2| > 0 by {
      if |l| > 0 {
        var x :| x in l;
        assert x in l2;
      }
    }
    assert |g.aria| > 0 ==> cat.aria in l2;
    if skipBlank && (forall i :: 0 <= i < |messages| ==> !NotBlank(Some(messages[i].1))) {
      assert !AnyMatched(messages, cat, skipBlank);
    }
  }

  /** The map a group's messages are collected in. */
  function GroupMap(g: Groups, which: Group): map<string, Value> {
    match which
    case Top => g.top
    case Paginate => g.paginate
    case Aria => g.aria
  }

  /** The message entry `i` is taken, its key selects `which` and its real
      name is `name`. */
  predicate SentAs(messages: seq<(string, string)>, cat: Catalogue, skipBlank: bool, i: int, which: Group, name: string) {
    0 <= i < |messages| && GroupOf(messages[i].0) == which && Matched(messages[i], cat, skipBlank).Some?
    && Matched(messages[i], cat, skipBlank).value.realName == name
  }

  /** Every taken message is in the map its key selects, under its real
      name. */
  lemma {:induction false} MessagesPlaced(messages: seq<(string, string)>, cat: Catalogue, skipBlank: bool)
    ensures forall i, which, name :: SentAs(messages, cat, skipBlank, i, which, name) ==>
              name in GroupMap(Grouped(messages, cat, skipBlank), which)
    decreases |messages|
  {
    if messages != [] {
      var init := messages[..|messages| - 1];
      MessagesPlaced(init, cat, skipBlank);
      var g := Grouped(init, cat, skipBlank);
      var g' := Grouped(messages, cat, skipBlank);
      forall i, which, name | SentAs(messages, cat, skipBlank, i, which, name)
        ensures name in GroupMap(g', which)
      {
        if i < |init| {
          assert messages[i] == init[i];
          assert SentAs(init, cat, skipBlank, i, which, name);
          assert GroupMap(g, which).Keys <= GroupMap(g', which).Keys;
        }
      }
    }
  }

  /** Every entry of a map comes from a taken message whose key selects
      that map, and holds that message's value. */
  lemma {:induction false} MessagesSourced(messages: seq<(string, string)>, cat: Catalogue, skipBlank: bool,
                                           which: Group, name: string)
    requires name in GroupMap(Grouped(messages, cat, skipBlank), which)
    ensures exists i :: SentAs(messages, cat, skipBlank, i, which, name)
              && GroupMap(Grouped(messages, cat, skipBlank), which)[name] == Str(messages[i].1)
    decreases |messages|
  {
    var init := messages[..|messages| - 1];
    var e := messages[|messages| - 1];
    var g := Grouped(init, cat, skipBlank);
    var g' := Grouped(messages, cat, skipBlank);
    var m := Matched(e, cat, skipBlank);
    if m.Some? && GroupOf(e.0) == which && m.value.realName == name {
      assert SentAs(messages, cat, skipBlank, |messages| - 1, which, name);
    } else {
      assert name in GroupMap(g, which) && GroupMap(g', which)[name] == GroupMap(g, which)[name];
      MessagesSourced(init, cat, skipBlank, which, name);
      var i :| SentAs(init, cat, skipBlank, i, which, name) && GroupMap(g, which)[name] == Str(init[i].1);
      assert messages[i] == init[i];
      assert SentAs(messages, cat, skipBlank, i, which, name);
    }
  }
}
