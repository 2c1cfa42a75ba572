/** What the configuration generators produce: maps from DataTables
    parameter names to values, filled by a fixed series of conditional
    puts. */
module GeneratedConfs {
  import opened Wrappers
  import opened ConfigValues
  import Html
  import TC = TableConfigurations

  /** The DataTables parameters the generators write. Each constructor
      stands for one field of the constants classes (generator/DTConstants
      for the current generators, constants/DTConstants for the older
      ones); `Type` is both DT_TYPE and DT_FILTER_TYPE, which hold the same
      string. The last line are the YADCF option names (its `data` is
      `Data`). A callback is configured under the name of its type. */
  datatype Param =
    | Columns | Order | Language
    | Searching | Info | Paging | Ordering | Processing
    | ScrollY | ScrollCollapse | ScrollX | ScrollXInner
    | Dom | AutoWidth | DisplayLength | LengthChange | PagingType | StateSave | JQueryUI
    | LengthMenu | StripeClasses
    | ServerSide | DeferRender | AjaxSource | ServerData | ServerParams | ServerMethod
    | Name | Orderable | Searchable | Visible | Data | Render | DefaultContent | ClassName | AsSorting | Type
    | Placeholder | Selector | Values | FilterLength
    | ColumnNumber | FilterType | FilterContainerId | ExternallyTriggered | FilterDelay
    | Callback(kind: TC.CallbackType)

  /** A value of a generated map: a plain value, or a list of per-column
      maps (the `columns` entry). */
  datatype Entry = Plain(v: Value) | Maps(maps: seq<map<Param, Value>>)

  /** A generated map. */
  type Conf = map<Param, Entry>

  /** One `if (...) { map.put(key, value); }` of a generator. */
  datatype Put<V> = Put(on: bool, key: Param, val: V)

  /** The map after the puts, in order, that are switched on. */
  function Apply<V>(m: map<Param, V>, ps: seq<Put<V>>): (r: map<Param, V>)
    ensures m.Keys <= r.Keys
    decreases |ps|
  {
    if ps == [] then m else Apply(if ps[0].on then m[ps[0].key := ps[0].val] else m, ps[1..])
  }

  /** No parameter is written twice. */
  predicate DistinctKeys<V>(ps: seq<Put<V>>) {
    forall i, j :: 0 <= i < j < |ps| ==> ps[i].key != ps[j].key
  }

  /** The parameters the puts write, in order. */
  function Keys<V>(ps: seq<Put<V>>): (r: seq<Param>)
    ensures |r| == |ps| && forall i :: 0 <= i < |ps| ==> r[i] == ps[i].key
  {
    seq(|ps|, i requires 0 <= i < |ps| => ps[i].key)
  }

  /** Puts whose parameters are pairwise different write distinct keys. */
  lemma DistinctByKeys<V>(ps: seq<Put<V>>, ks: seq<Param>)
    requires Keys(ps) == ks && forall i, j :: 0 <= i < j < |ks| ==> ks[i] != ks[j]
    ensures DistinctKeys(ps)
  {
    assert forall i :: 0 <= i < |ps| ==> ps[i].key == ks[i];
  }

  /** Two series of puts run one after the other. */
  lemma {:induction false} ApplyConcat<V>(m: map<Param, V>, ps: seq<Put<V>>, qs: seq<Put<V>>)
    ensures Apply(m, ps + qs) == Apply(Apply(m, ps), qs)
    decreases |ps|
  {
    if ps == [] {
      assert ps + qs == qs;
    } else {
      assert (ps + qs)[1..] == ps[1..] + qs;
      ApplyConcat(if ps[0].on then m[ps[0].key := ps[0].val] else m, ps[1..], qs);
    }
  }

  /** Puts that never write `k` leave its entry as it was. */
  lemma {:induction false} ApplyUntouched<V>(m: map<Param, V>, ps: seq<Put<V>>, k: Param)
    requires forall i :: 0 <= i < |ps| && ps[i].on ==> ps[i].key != k
    ensures k in Apply(m, ps) <==> k in m
    ensures k in m ==> Apply(m, ps)[k] == m[k]
    decreases |ps|
  {
    if ps != [] {
      var m' := if ps[0].on then m[ps[0].key := ps[0].val] else m;
      assert k in m' <==> k in m;
      assert k in m ==> m'[k] == m[k];
      ApplyUntouched(m', ps[1..], k);
    }
  }

  /** The last put switched on for a parameter decides its entry. */
  lemma {:induction false} ApplyLast<V>(m: map<Param, V>, ps: seq<Put<V>>, i: nat)
    requires i < |ps| && ps[i].on
    requires forall j :: i < j < |ps| && ps[j].on ==> ps[j].key != ps[i].key
    ensures ps[i].key in Apply(m, ps) && Apply(m, ps)[ps[i].key] == ps[i].val
  {
    var k := ps[i].key;
    assert ps == ps[..i + 1] + ps[i + 1..];
    ApplyConcat(m, ps[..i + 1], ps[i + 1..]);
    assert ps[..i + 1] == ps[..i] + [ps[i]];
    ApplyConcat(m, ps[..i], [ps[i]]);
    var mid := Apply(Apply(m, ps[..i]), [ps[i]]);
    assert mid == Apply(m, ps[..i])[k := ps[i].val];
    ApplyUntouched(mid, ps[i + 1..], k);
  }

  /** With distinct parameters, a parameter written by one put is present
      exactly when that put is switched on or it was present before, and a
      put switched on decides the value. */
  lemma ApplyAt<V>(m: map<Param, V>, ps: seq<Put<V>>, i: nat)
    requires DistinctKeys(ps) && i < |ps|
    ensures ps[i].key in Apply(m, ps) <==> ps[i].on || ps[i].key in m
    ensures ps[i].on ==> Apply(m, ps)[ps[i].key] == ps[i].val
    ensures !ps[i].on && ps[i].key in m ==> Apply(m, ps)[ps[i].key] == m[ps[i].key]
  {
    if ps[i].on {
      ApplyLast(m, ps, i);
    } else {
      ApplyUntouched(m, ps, ps[i].key);
    }
  }

  /** The entry under `k`, if any. */
  function At<V>(m: map<Param, V>, k: Param): Option<V> {
    if k in m then Some(m[k]) else None
  }

  /** The puts of a generator's sections, one section after the other. */
  function Flatten<V>(sections: seq<seq<Put<V>>>): seq<Put<V>>
    decreases |sections|
  {
    if sections == [] then [] else sections[0] + Flatten(sections[1..])
  }

  /** Every put of section `j` writes a parameter whose home is `j`. */
  predicate Homed<V>(sections: seq<seq<Put<V>>>, home: Param -> int) {
    forall j, i :: 0 <= j < |sections| && 0 <= i < |sections[j]| ==> home(sections[j][i].key) == j
  }

  /** When the sections write disjoint parameters, a parameter of section
      `s` is decided by that section alone. */
  lemma {:induction false} SectionAt<V>(m: map<Param, V>, sections: seq<seq<Put<V>>>, home: Param -> int, s: nat, i: nat)
    requires Homed(sections, home) && s < |sections| && i < |sections[s]| && DistinctKeys(sections[s])
    ensures At(Apply(m, Flatten(sections)), sections[s][i].key)
              == if sections[s][i].on then Some(sections[s][i].val) else At(m, sections[s][i].key)
    decreases |sections|
  {
    var k := sections[s][i].key;
    var rest := Flatten(sections[1..]);
    assert Homed(sections[1..], p => home(p) - 1) by {
      forall j, n | 0 <= j < |sections[1..]| && 0 <= n < |sections[1..][j]|
        ensures home(sections[1..][j][n].key) - 1 == j
      {
        assert sections[1..][j] == sections[j + 1];
      }
    }
    ApplyConcat(m, sections[0], rest);
    if s == 0 {
      ApplyAt(m, sections[0], i);
      RestUntouched(sections, home, k);
      ApplyUntouched(Apply(m, sections[0]), rest, k);
    } else {
      forall n | 0 <= n < |sections[0]| ensures sections[0][n].key != k {
        assert home(sections[0][n].key) == 0;
      }
      ApplyUntouched(m, sections[0], k);
      assert sections[1..][s - 1] == sections[s];
      SectionAt(Apply(m, sections[0]), sections[1..], p => home(p) - 1, s - 1, i);
    }
  }

  /** The later sections never write a parameter whose home is the first. */
  lemma {:induction false} RestUntouched<V>(sections: seq<seq<Put<V>>>, home: Param -> int, k: Param)
    requires Homed(sections, home) && |sections| > 0 && home(k) == 0
    ensures forall n :: 0 <= n < |Flatten(sections[1..])| ==> Flatten(sections[1..])[n].key != k
  {
    var tail: seq<seq<Put<V>>> := sections[1..];
    forall j, n | 0 <= j < |tail| && 0 <= n < |tail[j]| ensures home(tail[j][n].key) == j + 1 {
      assert tail[j] == sections[j + 1];
    }
    RestShifted(tail, home, k);
  }

  /** No section writes a parameter whose home lies below every put's. */
  lemma {:induction false} RestShifted<V>(sections: seq<seq<Put<V>>>, home: Param -> int, k: Param)
    requires forall j, i :: 0 <= j < |sections| && 0 <= i < |sections[j]| ==> home(sections[j][i].key) > home(k)
    ensures forall n :: 0 <= n < |Flatten(sections)| ==> Flatten(sections)[n].key != k
    decreases |sections|
  {
    if sections != [] {
      RestShifted(sections[1..], home, k);
      assert forall n :: 0 <= n < |sections[0]| ==> home(sections[0][n].key) > home(k);
    }
  }

  /** A parameter no section writes keeps its entry. */
  lemma {:induction false} Unwritten<V>(m: map<Param, V>, sections: seq<seq<Put<V>>>, k: Param)
    requires forall j, i :: 0 <= j < |sections| && 0 <= i < |sections[j]| ==> sections[j][i].key != k
    ensures At(Apply(m, Flatten(sections)), k) == At(m, k)
    decreases |sections|
  {
    if sections != [] {
      ApplyConcat(m, sections[0], Flatten(sections[1..]));
      assert forall i :: 0 <= i < |sections[0]| ==> sections[0][i].key != k;
      ApplyUntouched(m, sections[0], k);
      Unwritten(Apply(m, sections[0]), sections[1..], k);
    }
  }

  /** The text of an optional string, "" for null. */
  function Text(s: Option<string>): string {
    if s.Some? then s.value else ""
  }

  /** The positions of the elements satisfying `p`, in increasing order:
      what a loop with a column index counting every column collects. */
  function Positions<T>(xs: seq<T>, p: T -> bool): (r: seq<nat>)
    ensures forall k :: 0 <= k < |r| ==> r[k] < |xs| && p(xs[r[k]])
    ensures forall i :: 0 <= i < |xs| && p(xs[i]) ==> i in r
    ensures forall k, l :: 0 <= k < l < |r| ==> r[k] < r[l]
    decreases |xs|
  {
    if xs == [] then []
    else
      var init := xs[..|xs| - 1];
      var r := Positions(init, p) + if p(xs[|xs| - 1]) then [|xs| - 1] else [];
      assert forall i :: 0 <= i < |init| ==> init[i] == xs[i];
      r
  }

  /** CollectionUtils.containsAny(types, ALL, HTML): the column is part of
      the HTML table. */
  predicate InHtml(displayTypes: seq<Html.DisplayType>) {
    Html.ALL in displayTypes || Html.HTML in displayTypes
  }

  /** How a generator sends a callback's code: as a JavascriptFunction, or,
      in MainGenerator, as a JavascriptSnippet. */
  function CallbackValue(code: string, asSnippet: bool): Value {
    if asSnippet then Snippet(code) else Func(code)
  }

  /** One put per callback, under the name of its type. */
  function CallbackPuts(cbs: seq<TC.Callback>, asSnippet: bool): (r: seq<Put<Entry>>)
    ensures |r| == |cbs|
    ensures forall i :: 0 <= i < |cbs| ==> r[i] == Put(true, Callback(cbs[i].kind), Plain(CallbackValue(cbs[i].code, asSnippet)))
  {
    seq(|cbs|, i requires 0 <= i < |cbs| => Put(true, Callback(cbs[i].kind), Plain(CallbackValue(cbs[i].code, asSnippet))))
  }

  /** The callback loop: each callback is put under its type's name. */
  method PutCallbacks(m: Conf, cbs: seq<TC.Callback>, asSnippet: bool) returns (r: Conf)
    ensures r == Apply(m, CallbackPuts(cbs, asSnippet))
  {
    r := m;
    var n := 0;
    while n < |cbs|
      invariant 0 <= n <= |cbs|
      invariant r == Apply(m, CallbackPuts(cbs[..n], asSnippet))
    {
      var c := cbs[n];
      assert CallbackPuts(cbs[..n + 1], asSnippet) == CallbackPuts(cbs[..n], asSnippet) + [Put(true, Callback(c.kind), Plain(CallbackValue(c.code, asSnippet)))];
      ApplyConcat(m, CallbackPuts(cbs[..n], asSnippet), [Put(true, Callback(c.kind), Plain(CallbackValue(c.code, asSnippet)))]);
      r := r[Callback(c.kind) := Plain(CallbackValue(c.code, asSnippet))];
      n := n + 1;
    }
    assert cbs[..n] == cbs;
  }

  /** The callbacks never touch a parameter that is not a callback. */
  lemma CallbacksKeepOthers(m: Conf, cbs: seq<TC.Callback>, asSnippet: bool, k: Param)
    requires !k.Callback?
    ensures At(Apply(m, CallbackPuts(cbs, asSnippet)), k) == At(m, k)
  {
    ApplyUntouched(m, CallbackPuts(cbs, asSnippet), k);
  }

  /** The code of the last callback of type `k`. */
  function LastCode(cbs: seq<TC.Callback>, k: TC.CallbackType): Option<string>
    decreases |cbs|
  {
    if cbs == [] then None
    else if cbs[|cbs| - 1].kind == k then Some(cbs[|cbs| - 1].code)
    else LastCode(cbs[..|cbs| - 1], k)
  }

  /** After the callback loop, a callback type holds the code of the last
      callback of that type. */
  lemma {:induction false} CallbacksApplied(m: Conf, cbs: seq<TC.Callback>, asSnippet: bool, k: TC.CallbackType)
    ensures At(Apply(m, CallbackPuts(cbs, asSnippet)), Callback(k))
              == if LastCode(cbs, k).Some? then Some(Plain(CallbackValue(LastCode(cbs, k).value, asSnippet))) else At(m, Callback(k))
    decreases |cbs|
  {
    if cbs != [] {
      var init, c := cbs[..|cbs| - 1], cbs[|cbs| - 1];
      var last := Put(true, Callback(c.kind), Plain(CallbackValue(c.code, asSnippet)));
      assert CallbackPuts(cbs, asSnippet) == CallbackPuts(init, asSnippet) + [last];
      ApplyConcat(m, CallbackPuts(init, asSnippet), [last]);
      CallbacksApplied(m, init, asSnippet, k);
    }
  }
}
