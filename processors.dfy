/** extension/feature/PaginationType as the pagination processors see it:
    the seven types the processors map to an extension, and the remaining
    constants of the enum, whose names are given (PaginationType is not
    part of this model). */
module PaginationTypes {
  import opened Wrappers
  import opened JavaString
  import StringUtils

  datatype PaginationType =
    | INPUT
    | LISTBOX
    | SCROLLING
    | FOUR_BUTTON
    | BOOTSTRAP
    | BOOTSTRAP_FOUR_BUTTON
    | BOOTSTRAP_FULL_NUMBERS
    | Other(name: string)   // a constant the switch leaves to its default branch

  /** name() of a constant. */
  function Name(t: PaginationType): string {
    match t
    case INPUT => "INPUT"
    case LISTBOX => "LISTBOX"
    case SCROLLING => "SCROLLING"
    case FOUR_BUTTON => "FOUR_BUTTON"
    case BOOTSTRAP => "BOOTSTRAP"
    case BOOTSTRAP_FOUR_BUTTON => "BOOTSTRAP_FOUR_BUTTON"
    case BOOTSTRAP_FULL_NUMBERS => "BOOTSTRAP_FULL_NUMBERS"
    case Other(n) => n
  }

  /** The types the processors register an extension for. */
  predicate HasFeature(t: PaginationType) {
    !t.Other?
  }

  const Featured: seq<PaginationType> :=
    [INPUT, LISTBOX, SCROLLING, FOUR_BUTTON, BOOTSTRAP, BOOTSTRAP_FOUR_BUTTON, BOOTSTRAP_FULL_NUMBERS]

  /** PaginationType.valueOf: the constant with exactly that name; `others`
      are the names of the constants outside Featured. */
  function ValueOf(name: string, others: set<string>): (r: Option<PaginationType>)
    ensures r.Some? ==> Name(r.value) == name
    ensures r.Some? && r.value.Other? ==> name in others
    ensures r.None? ==> name !in others && forall t :: t in Featured ==> Name(t) != name
  {
    if name == "INPUT" then Some(INPUT)
    else if name == "LISTBOX" then Some(LISTBOX)
    else if name == "SCROLLING" then Some(SCROLLING)
    else if name == "FOUR_BUTTON" then Some(FOUR_BUTTON)
    else if name == "BOOTSTRAP" then Some(BOOTSTRAP)
    else if name == "BOOTSTRAP_FOUR_BUTTON" then Some(BOOTSTRAP_FOUR_BUTTON)
    else if name == "BOOTSTRAP_FULL_NUMBERS" then Some(BOOTSTRAP_FULL_NUMBERS)
    else if name in others then Some(Other(name))
    else None
  }

  /** The type the legacy processor reads from a stringified value: none
      for a blank value, the constant named by the upper-cased value, and
      an error naming the value otherwise. */
  function StrictType(s: string, others: set<string>, valuesText: string): Result<Option<PaginationType>> {
    if !StringUtils.NotBlank(Some(s)) then Ok(None)
    else match ValueOf(ToUpper(s), others)
      case None => Err(Configuration(s + " is not a valid value among " + valuesText))
      case Some(t) => Ok(Some(t))
  }

  /** The type the option processor reads from the context's value: as the
      legacy one, but an unknown name is left to a user extension and reads
      as no type at all. */
  function LenientType(value: Option<string>, others: set<string>): Option<PaginationType> {
    if StringUtils.NotBlank(value) then ValueOf(ToUpper(value.value), others) else None
  }

  /** The two processors agree wherever the legacy one accepts the value,
      and the legacy one refuses exactly the non-blank values the option
      processor reads as no type. */
  lemma StrictAgreesWithLenient(s: string, others: set<string>, valuesText: string)
    ensures StrictType(s, others, valuesText).Ok? ==> StrictType(s, others, valuesText).value == LenientType(Some(s), others)
    ensures StrictType(s, others, valuesText).Err? <==> StringUtils.NotBlank(Some(s)) && LenientType(Some(s), others).None?
  {
  }

  /** A type's name is read back as that type, whatever the case the user
      wrote it in, once the processor has upper-cased it. */
  lemma ValueOfUpperName(t: PaginationType, written: string, others: set<string>)
    requires HasFeature(t) || (Name(t) in others && forall u :: u in Featured ==> Name(u) != Name(t))
    requires ToUpper(written) == Name(t)
    ensures ValueOf(ToUpper(written), others) == Some(t)
  {
  }

  /** The processors read "bootstrap" as BOOTSTRAP. */
  lemma LowerCaseBootstrap(others: set<string>)
    ensures ValueOf(ToUpper("bootstrap"), others) == Some(BOOTSTRAP)
  {
    assert ToUpper("bootstrap") == "BOOTSTRAP";
  }
}

/** processor/AbstractConfigurationProcessor and the legacy
    processor/feature/FeaturePaginationTypeProcessor: processing one entry
    of a table's token map, with the `scope#value` syntax that loads asset
    scopes into the request before the value is used. */
module ConfigurationProcessors {
  import opened Wrappers
  import opened JavaString
  import opened ConfigValues
  import StringUtils
  import CT = ConfigTokens
  import opened PaginationTypes

  /** The maps of the table configuration a processor reaches: the token
      map being iterated over, the staging map merged after the loop, and
      the names of the registered extensions. */
  class TableState {
    var configurations: map<CT.ConfigToken, Value>
    var staging: map<CT.ConfigToken, Value>
    var extensions: set<string>

    constructor (configurations: map<CT.ConfigToken, Value>)
      ensures this.configurations == configurations && staging == map[] && extensions == {}
    {
      this.configurations := configurations;
      staging, extensions := map[], {};
    }
  }

  /** The token map and staging map of a column configuration. */
  class ColumnState {
    var configurations: map<CT.ConfigToken, Value>
    var staging: map<CT.ConfigToken, Value>

    constructor (configurations: map<CT.ConfigToken, Value>)
      ensures this.configurations == configurations && staging == map[]
    {
      this.configurations := configurations;
      staging := map[];
    }
  }

  const WrongFormat: string :=
    "Wrong format used in the attribute value. The right format is: 'scopeToAdd#javascriptObject'"

  /** What processScope makes of a value holding a hash: the scopes to add
      to the request, the new stringified value and the new entry value. */
  datatype Scoped = Scoped(scopes: seq<string>, value: string, entry: string)

  /** Every element trimmed. */
  function TrimAll(xs: seq<string>): (r: seq<string>)
    ensures |r| == |xs| && forall i :: 0 <= i < |xs| ==> r[i] == Trim(xs[i])
  {
    seq(|xs|, i requires 0 <= i < |xs| => Trim(xs[i]))
  }

  lemma TrimAllSnoc(xs: seq<string>, i: nat)
    requires i < |xs|
    ensures TrimAll(xs[..i + 1]) == TrimAll(xs[..i]) + [Trim(xs[i])]
  {
    var a, b := TrimAll(xs[..i + 1]), TrimAll(xs[..i]) + [Trim(xs[i])];
    assert |a| == |b|;
    forall k | 0 <= k < |a|
      ensures a[k] == b[k]
    {
      if k < i {
        assert xs[..i + 1][k] == xs[..i][k];
      }
    }
  }

  /** The loop over the comma-separated scopes, each trimmed. */
  method TrimEach(names: seq<string>) returns (added: seq<string>)
    ensures added == TrimAll(names)
  {
    added := [];
    var i := 0;
    while i < |names|
      invariant 0 <= i <= |names|
      invariant added == TrimAll(names[..i])
    {
      TrimAllSnoc(names, i);
      added := added + [Trim(names[i])];
      i := i + 1;
    }
    assert names[..i] == names;
  }

  /** substring(indexOf("#") + 1): the text after the first hash, the whole
      text when there is none (AfterHashIsSubstring). */
  function AfterHash(s: string): string {
    if '#' in s then AfterFirstHash(s) else s
  }

  function AfterFirstHash(s: string): string
    decreases |s|
  {
    if |s| == 0 then "" else if s[0] == '#' then s[1..] else AfterFirstHash(s[1..])
  }

  /** AfterHash is the substring from one past indexOf("#"). */
  lemma {:induction false} AfterHashIsSubstring(s: string)
    ensures AfterHash(s) == s[IndexOf(s, "#") + 1..]
    decreases |s|
  {
    if '#' !in s {
      IndexOfAbsent(s, '#');
    } else if s[0] == '#' {
      assert s[..1] == "#";
    } else {
      assert s[0] != '#';
      assert '#' in s[1..] by {
        var k :| 0 <= k < |s| && s[k] == '#';
        assert s[1..][k - 1] == '#';
      }
      AfterHashIsSubstring(s[1..]);
      IndexOfFound(s[1..], '#');
      assert !StartsWith(s, "#");
      var k := IndexOf(s[1..], "#");
      assert IndexOf(s, "#") == k + 1;
      assert s[1..][k + 1..] == s[k + 2..];
    }
  }

  lemma {:induction false} IndexOfFound(s: string, c: char)
    requires c in s
    ensures IndexOf(s, [c]) >= 0
    decreases |s|
  {
    if s[0] != c {
      assert c in s[1..] by {
        var k :| 0 <= k < |s| && s[k] == c;
        assert s[1..][k - 1] == c;
      }
      IndexOfFound(s[1..], c);
    } else {
      assert s[..1] == [c];
    }
  }

  /** The scopes named before the hash: split on commas when there is one,
      each trimmed. */
  function ScopeNames(head: string): seq<string> {
    if Contains(head, ",") then TrimAll(Split(Trim(head), ',')) else [Trim(head)]
  }

  /** processScope on a stringified value: None when it holds no hash; an
      error when it starts with a hash or does not split into exactly two
      parts; otherwise the scopes and the cleaned values. The entry is cut
      a second time after a hash, as the code does. */
  function ScopeOf(s: string): Result<Option<Scoped>> {
    if !Contains(s, "#") then Ok(None)
    else
      var parts := Split(s, '#');
      if StartsWith(s, "#") || |parts| != 2 then Err(Configuration(WrongFormat))
      else
        var v := AfterHash(s);
        Ok(Some(Scoped(ScopeNames(parts[0]), v, AfterHash(v))))
  }

  /** The intended cleaning: the entry is the value after the hash, like
      the stringified value. */
  function ScopeOfIntended(s: string): Result<Option<Scoped>> {
    match ScopeOf(s)
    case Ok(Some(sc)) => Ok(Some(Scoped(sc.scopes, sc.value, sc.value)))
    case other => other
  }

  /** The stringified value, the entry's value, the scopes added so far
      and the outcome. */
  datatype Step = Step(value: string, entry: Value, scopes: seq<string>, r: Result<()>)

  /** What processScope leaves after reading `s`: unchanged without a hash,
      unchanged with the error for a malformed value, and otherwise the
      cleaned values and the scopes appended. */
  function AfterScope(s: string, e: Value, before: seq<string>): (st: Step)
    ensures st.r.Ok? <==> ScopeOf(s).Ok?
    ensures st.r.Err? ==> st == Step(s, e, before, Err(Configuration(WrongFormat)))
  {
    match ScopeOf(s)
    case Ok(None) => Step(s, e, before, Ok(()))
    case Err(err) => Step(s, e, before, Err(err))
    case Ok(Some(sc)) => Step(sc.value, Str(sc.entry), before + sc.scopes, Ok(()))
  }

  /** What process leaves once the value is stringified as `s`: scopes are
      processed only when the processor accepts them. */
  function Processed(scopeUpdatable: bool, s: string, v: Value, before: seq<string>): Step {
    if scopeUpdatable then AfterScope(s, v, before) else Step(s, v, before, Ok(()))
  }

  class ConfigurationProcessor {
    const scopeUpdatable: bool
    var table: TableState?
    var column: ColumnState?
    /** The column whose staging map stagingConf is; set by the column
        overload of process only. */
    var stagingColumn: ColumnState?
    var stringifiedValue: string
    /** The value of the entry being processed, which updateEntry replaces. */
    var entry: Value
    /** The scopes added to the request's asset context, in order. */
    var scopes: seq<string>

    constructor (scopeUpdatable: bool)
      ensures this.scopeUpdatable == scopeUpdatable
      ensures table == null && column == null && stagingColumn == null && scopes == []
    {
      this.scopeUpdatable := scopeUpdatable;
      table, column, stagingColumn := null, null, null;
      stringifiedValue, entry := "", Null;
      scopes := [];
    }

    /** The fields processScope reads and writes, and its outcome. */
    function State(r: Result<()>): Step
      reads this`stringifiedValue, this`entry, this`scopes
    {
      Step(stringifiedValue, entry, scopes, r)
    }

    /** process(configEntry, tableConfiguration) up to doProcess: the value
        `v` is stringified as `text` (String.valueOf, which Stringify
        states) and trimmed, then its scopes are processed when the
        processor accepts them. */
    method Process(v: Value, text: string, table: TableState) returns (r: Result<()>, s: string)
      modifies this`table, this`stringifiedValue, this`entry, this`scopes
      ensures this.table == table
      ensures s == Trim(text)
      ensures State(r) == Processed(scopeUpdatable, s, v, old(scopes))
    {
      this.table := table;
      s := Trim(text);
      r := Start(v, s);
    }

    /** process(configEntry, columnConfiguration, tableConfiguration) up to
        doProcess: as the table overload, the column and its staging map
        recorded as well. */
    method ProcessColumn(v: Value, text: string, column: ColumnState, table: TableState)
      returns (r: Result<()>, s: string)
      modifies this`table, this`column, this`stagingColumn, this`stringifiedValue, this`entry, this`scopes
      ensures this.table == table && this.column == column && stagingColumn == column
      ensures s == Trim(text)
      ensures State(r) == Processed(scopeUpdatable, s, v, old(scopes))
    {
      this.column, stagingColumn := column, column;
      r, s := Process(v, text, table);
    }

    /** The common part of both overloads once the value is stringified as
        `s`: the entry and the stringified value are recorded, then the
        scopes are processed when the processor accepts them. */
    method Start(v: Value, s: string) returns (r: Result<()>)
      modifies this`stringifiedValue, this`entry, this`scopes
      ensures State(r) == Processed(scopeUpdatable, s, v, old(scopes))
    {
      ghost var before := scopes;
      entry, stringifiedValue := v, s;
      if scopeUpdatable {
        r := ProcessScope();
        ghost var st := AfterScope(s, v, before);
        assert State(r) == st;
      } else {
        r := Ok(());
      }
    }

    /** processScope: the value is cleaned and the scopes added as
        AfterScope says. */
    method ProcessScope() returns (r: Result<()>)
      modifies this`stringifiedValue, this`entry, this`scopes
      ensures State(r) == AfterScope(old(stringifiedValue), old(entry), old(scopes))
    {
      r := Ok(());
      var s := stringifiedValue;
      if Contains(s, "#") {
        var parts := Split(s, '#');
        if StartsWith(s, "#") || |parts| != 2 {
          return Err(Configuration(WrongFormat));
        }
        var added;
        if Contains(parts[0], ",") {
          added := TrimEach(Split(Trim(parts[0]), ','));
        } else {
          added := [Trim(parts[0])];
        }
        var v := AfterHash(s);
        stringifiedValue, entry, scopes := v, Str(AfterHash(v)), scopes + added;
      }
    }

    /** addTableEntry: the token goes to the table's staging map. */
    method AddTableEntry(token: CT.ConfigToken, v: Value) returns (r: Result<()>)
      modifies table
      ensures table == null ==> r == Err(NullPointer("tableConfiguration"))
      ensures table != null ==> r.Ok? && table.staging == old(table.staging)[token := v] &&
                                table.configurations == old(table.configurations) &&
                                table.extensions == old(table.extensions)
    {
      if table == null {
        return Err(NullPointer("tableConfiguration"));
      }
      table.staging := table.staging[token := v];
      r := Ok(());
    }

    /** isTableEntryPresent: only the token map is consulted, not the
        staging map. */
    function IsTableEntryPresent(token: CT.ConfigToken): (r: Result<bool>)
      reads this, table
      ensures table == null <==> r.Err?
      ensures r.Ok? ==> (r.value <==> token in table.configurations)
    {
      if table == null then Err(NullPointer("tableConfiguration")) else Ok(token in table.configurations)
    }

    /** addColumnEntry: the token goes to the column's staging map. */
    method AddColumnEntry(token: CT.ConfigToken, v: Value) returns (r: Result<()>)
      modifies column
      ensures column == null ==> r == Err(NullPointer("columnConfiguration"))
      ensures column != null ==> r.Ok? && column.staging == old(column.staging)[token := v] &&
                                 column.configurations == old(column.configurations)
    {
      if column == null {
        return Err(NullPointer("columnConfiguration"));
      }
      column.staging := column.staging[token := v];
      r := Ok(());
    }

    /** isColumnEntryPresent: the column's token map or stagingConf, the
        staging map recorded by the column overload of process. */
    function IsColumnEntryPresent(token: CT.ConfigToken): (r: Result<bool>)
      reads this, column, stagingColumn
      ensures column == null ==> r.Err?
      ensures column != null && token in column.configurations ==> r == Ok(true)
      ensures column != null && token !in column.configurations ==>
                (stagingColumn == null <==> r.Err?) &&
                (r.Ok? ==> (r.value <==> token in stagingColumn.staging))
    {
      if column == null then Err(NullPointer("columnConfiguration"))
      else if token in column.configurations then Ok(true)
      else if stagingColumn == null then Err(NullPointer("stagingConf"))
      else Ok(token in stagingColumn.staging)
    }

    /** doProcess of the legacy FeaturePaginationTypeProcessor: the entry
        becomes the type StrictType reads, null for a blank value, and the
        seven featured types register their extension (named by
        `featureName`); `valuesText` is the text of PaginationType.values()
        the error message ends with. */
    method ProcessPaginationType(others: set<string>, valuesText: string, featureName: PaginationType -> string)
      returns (r: Result<()>)
      modifies this, table
      ensures this.table == old(this.table) && stringifiedValue == old(stringifiedValue)
      ensures var read := StrictType(stringifiedValue, others, valuesText);
              match read
              case Err(e) =>
                r == Err(e) && entry == old(entry) && (table != null ==> unchanged(table))
              case Ok(None) =>
                r.Ok? && entry == Null && (table != null ==> unchanged(table))
              case Ok(Some(t)) =>
                if HasFeature(t) && table == null then
                  r == Err(NullPointer("tableConfiguration")) && entry == old(entry)
                else
                  r.Ok? && entry == Str(Name(t)) &&
                  (table != null ==> table.configurations == old(table.configurations) &&
                                     table.staging == old(table.staging) &&
                                     table.extensions == old(table.extensions) +
                                       (if HasFeature(t) then {featureName(t)} else {}))
    {
      if !StringUtils.NotBlank(Some(stringifiedValue)) {
        entry := Null;
        return Ok(());
      }
      var t := ValueOf(ToUpper(stringifiedValue), others);
      if t.None? {
        return Err(Configuration(stringifiedValue + " is not a valid value among " + valuesText));
      }
      if HasFeature(t.value) {
        if table == null {
          return Err(NullPointer("tableConfiguration"));
        }
        table.extensions := table.extensions + {featureName(t.value)};
      }
      entry := Str(Name(t.value));
      r := Ok(());
    }
  }

  // ---------------------------------------------------------------------
  // Properties of the scope syntax

  lemma ContainsChar(s: string, c: char)
    ensures Contains(s, [c]) <==> c in s
    decreases |s|
  {
    if |s| > 0 {
      ContainsChar(s[1..], c);
      assert s == [s[0]] + s[1..];
    }
  }

  lemma IndexOfFirst(a: string, c: char, b: string)
    requires c !in a
    ensures IndexOf(a + [c] + b, [c]) == |a|
    decreases |a|
  {
    var s := a + [c] + b;
    if |a| > 0 {
      assert s[1..] == a[1..] + [c] + b;
      IndexOfFirst(a[1..], c, b);
      assert !StartsWith(s, [c]) by { assert s[0] == a[0]; }
    } else {
      assert s[..1] == [c];
    }
  }

  lemma IndexOfAbsent(s: string, c: char)
    requires c !in s
    ensures IndexOf(s, [c]) == -1
    decreases |s|
  {
    if |s| > 0 {
      IndexOfAbsent(s[1..], c);
      assert !StartsWith(s, [c]) by { assert s[0] in s; }
    }
  }

  /** A string whose first and last characters are not trimmed is its own
      trim. */
  lemma TrimmedAlready(s: string)
    requires |s| > 0 ==> s[0] > ' ' && s[|s| - 1] > ' '
    ensures Trim(s) == s
  {
  }

  /** A name that is neither blank around the edges nor holds a separator. */
  predicate ScopeName(n: string) {
    |n| > 0 && n[0] > ' ' && n[|n| - 1] > ' ' && '#' !in n && ',' !in n
  }

  /** The documented form reads back: `scope1,scope2#object` adds the named
      scopes in order and leaves the object as both the stringified value
      and the entry. */
  lemma ScopeRoundTrip(names: seq<string>, obj: string)
    requires |names| >= 1 && forall i :: 0 <= i < |names| ==> ScopeName(names[i])
    requires |obj| > 0 && '#' !in obj && obj[|obj| - 1] > ' '
    ensures var s := StringUtils.Joined(StringUtils.Wrap(names), ",") + "#" + obj;
            Trim(s) == s && ScopeOf(s) == Ok(Some(Scoped(names, obj, obj)))
  {
    var head := StringUtils.Joined(StringUtils.Wrap(names), ",");
    var s := head + "#" + obj;
    HeadShape(names);
    assert s[0] == head[0];
    assert s[|s| - 1] == obj[|obj| - 1];
    TrimmedAlready(s);
    assert '#' in s by { assert s[|head|] == '#'; }
    ContainsChar(s, '#');
    SplitAtHash(head, obj);
    assert !StartsWith(s, "#") by { assert s[0] != '#'; }
    AfterHashOf(head, obj);
    ScopeNamesOfJoined(names);
  }

  /** A value with one hash between two hash-free parts splits into them. */
  lemma SplitAtHash(head: string, obj: string)
    requires '#' !in head && '#' !in obj && |obj| > 0
    ensures Split(head + "#" + obj, '#') == [head, obj]
  {
    var s := head + "#" + obj;
    assert s[|head|] == '#';
    StringUtils.PiecesOfPlain(head, '#');
    StringUtils.PiecesAppend(head, obj, '#');
  }

  /** The text after the first hash of `head#rest` is `rest`. */
  lemma {:induction false} AfterHashOf(head: string, rest: string)
    requires '#' !in head
    ensures AfterHash(head + "#" + rest) == rest
    decreases |head|
  {
    var s := head + "#" + rest;
    assert s[|head|] == '#';
    if |head| > 0 {
      assert s[1..] == head[1..] + "#" + rest;
      AfterHashOf(head[1..], rest);
      assert s[1..][|head| - 1] == '#';
    } else {
      assert s == "#" + rest;
    }
  }

  /** The joined names start and end with a name character and hold no
      hash. */
  lemma {:induction false} HeadShape(names: seq<string>)
    requires |names| >= 1 && forall i :: 0 <= i < |names| ==> ScopeName(names[i])
    ensures var head := StringUtils.Joined(StringUtils.Wrap(names), ",");
            |head| > 0 && head[0] > ' ' && head[|head| - 1] > ' ' && '#' !in head
    ensures var head := StringUtils.Joined(StringUtils.Wrap(names), ",");
            (|names| == 1 <==> ',' !in head)
  {
    var w := StringUtils.Wrap(names);
    if |names| > 1 {
      var init := names[..|names| - 1];
      assert StringUtils.Wrap(init) == w[..|names| - 1];
      HeadShape(init);
      var a := StringUtils.Joined(w[..|names| - 1], ",");
      var last := names[|names| - 1];
      assert StringUtils.Joined(w, ",") == a + "," + last;
      assert (a + "," + last)[|a|] == ',';
    }
  }

  lemma ScopeNamesOfJoined(names: seq<string>)
    requires |names| >= 1 && forall i :: 0 <= i < |names| ==> ScopeName(names[i])
    ensures ScopeNames(StringUtils.Joined(StringUtils.Wrap(names), ",")) == names
  {
    if |names| == 1 {
      ScopeNamesOfOne(names);
    } else {
      ScopeNamesOfMany(names);
    }
  }

  lemma ScopeNamesOfOne(names: seq<string>)
    requires |names| == 1 && ScopeName(names[0])
    ensures ScopeNames(StringUtils.Joined(StringUtils.Wrap(names), ",")) == names
  {
    assert StringUtils.Joined(StringUtils.Wrap(names), ",") == names[0];
    ScopeNamesOfName(names[0]);
    assert names == [names[0]];
  }

  lemma ScopeNamesOfName(n: string)
    requires ScopeName(n)
    ensures ScopeNames(n) == [n]
  {
    TrimmedAlready(n);
    ContainsChar(n, ',');
  }

  lemma ScopeNamesOfMany(names: seq<string>)
    requires |names| > 1 && forall i :: 0 <= i < |names| ==> ScopeName(names[i])
    ensures ScopeNames(StringUtils.Joined(StringUtils.Wrap(names), ",")) == names
  {
    var head := StringUtils.Joined(StringUtils.Wrap(names), ",");
    HeadTrimmed(names, head);
    SplitJoined(names, head);
    TrimAllFixed(names);
    ScopeNamesSplit(head, names);
  }

  lemma HeadTrimmed(names: seq<string>, head: string)
    requires |names| > 1 && forall i :: 0 <= i < |names| ==> ScopeName(names[i])
    requires head == StringUtils.Joined(StringUtils.Wrap(names), ",")
    ensures Trim(head) == head
  {
    HeadShape(names);
    TrimmedAlready(head);
  }

  lemma ScopeNamesSplit(h: string, names: seq<string>)
    requires Trim(h) == h && |names| > 1 && Split(h, ',') == names && TrimAll(names) == names
    ensures ScopeNames(h) == names
  {
    assert ',' in h;
    ContainsChar(h, ',');
  }

  lemma SplitJoined(names: seq<string>, head: string)
    requires |names| > 1 && forall i :: 0 <= i < |names| ==> ScopeName(names[i])
    requires head == StringUtils.Joined(StringUtils.Wrap(names), ",")
    ensures Split(head, ',') == names
  {
    HeadShape(names);
    StringUtils.JoinedThenPieces(names, ',');
    assert names[|names| - 1] != "";
    assert DropTrailingEmpty(names) == names;
  }

  lemma TrimAllFixed(names: seq<string>)
    requires forall i :: 0 <= i < |names| ==> ScopeName(names[i])
    ensures TrimAll(names) == names
  {
    forall i | 0 <= i < |names|
      ensures Trim(names[i]) == names[i]
    {
      assert ScopeName(names[i]);
      TrimmedAlready(names[i]);
    }
  }

  /** A value starting with a hash, or with more than one part around its
      hashes, is refused. */
  lemma LeadingHashRefused(s: string)
    requires StartsWith(s, "#")
    ensures ScopeOf(s) == Err(Configuration(WrongFormat))
  {
    assert s[0] == '#';
    ContainsChar(s, '#');
  }

  /** As written, a value whose object ends with a hash loses its object
      in the entry: "a#b#" leaves "b#" as the stringified value and "" as
      the entry. */
  lemma TrailingHashEmptiesEntry()
    ensures ScopeOf("a#b#") == Ok(Some(Scoped(["a"], "b#", "")))
  {
    var s := "a#b#";
    assert s[1] == '#';
    ContainsChar(s, '#');
    assert s[..1] == "a";
    assert Contains(s, "#") && !StartsWith(s, "#");
    TrailingHashSplit();
    TrailingHashAfter();
    ContainsChar("a", ',');
    TrimmedAlready("a");
    assert ScopeNames("a") == ["a"];
  }

  lemma TrailingHashSplit()
    ensures Split("a#b#", '#') == ["a", "b"]
  {
    assert "a#b#" == "a" + ['#'] + "b" + ['#'];
    SplitTrailingSeparator("a", "b", '#');
  }

  /** `a<c>b<c>` splits into a and b: the empty last piece is dropped. */
  lemma SplitTrailingSeparator(a: string, b: string, c: char)
    requires c !in a && c !in b && b != ""
    ensures Split(a + [c] + b + [c], c) == [a, b]
  {
    var s := a + [c] + b + [c];
    assert s[|a|] == c;
    assert s == (a + [c] + b) + [c] + "";
    StringUtils.PiecesAppend(a + [c] + b, "", c);
    StringUtils.PiecesAppend(a, b, c);
    StringUtils.PiecesOfPlain(a, c);
    var p := Pieces(s, c);
    assert p == [a, b, ""];
    assert p[..2] == [a, b];
    assert DropTrailingEmpty(p) == DropTrailingEmpty([a, b]) == [a, b];
  }

  lemma TrailingHashAfter()
    ensures AfterHash("a#b#") == "b#" && AfterHash("b#") == ""
  {
    assert "a#b#" == "a" + "#" + "b#";
    AfterHashOf("a", "b#");
    assert "b#" == "b" + "#" + "";
    AfterHashOf("b", "");
  }

  /** Cleaned as intended, the entry is always the stringified value, and
      the two agree wherever the object holds no further hash. */
  lemma ScopeIntendedEntryIsValue(s: string)
    ensures ScopeOfIntended(s).Ok? && ScopeOfIntended(s).value.Some? ==>
              ScopeOfIntended(s).value.value.entry == ScopeOfIntended(s).value.value.value
    ensures ScopeOf(s).Ok? && ScopeOf(s).value.Some? && '#' !in ScopeOf(s).value.value.value ==>
              ScopeOfIntended(s) == ScopeOf(s)
  {
    if ScopeOf(s).Ok? && ScopeOf(s).value.Some? && '#' !in ScopeOf(s).value.value.value {
      IndexOfAbsent(ScopeOf(s).value.value.value, '#');
    }
  }
}
