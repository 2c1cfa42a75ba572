/** config/ConfigLoader: the configuration groups declared in the user
    properties, and for each group the options its properties set, found
    by name in the option registry. */
module ConfigLoading {
  import W = Wrappers
  import opened JavaString
  import opened ConfigValues
  import O = Options
  import ExportPatterns

  const DefaultGroupName: string := "global"
  const LocaleResolverKey: string := "i18n.locale.resolver"
  const MessageResolverKey: string := "i18n.message.resolver"
  const StandaloneKey: string := "main.standalone"

  /** key.indexOf("."), or |key| when the key has no dot. */
  function FirstDot(key: string): (i: nat)
    ensures i <= |key|
    ensures i < |key| ==> key[i] == '.'
    ensures forall j :: 0 <= j < i ==> key[j] != '.'
  {
    if |key| == 0 || key[0] == '.' then 0 else 1 + FirstDot(key[1..])
  }

  /** The part of a key before its first dot. */
  function Before(key: string): string {
    key[..FirstDot(key)]
  }

  /** key.substring(0, key.indexOf(".")): the group a user key names; a key
      without a dot makes substring fail. */
  function GroupOfKey(key: string): (r: W.Result<string>)
    ensures r.Err? <==> '.' !in key
    ensures r.Ok? ==> '.' !in r.value && StartsWith(key, r.value + ".")
  {
    if FirstDot(key) == |key| then W.Err(W.IndexOutOfBounds(-1)) else W.Ok(Before(key))
  }

  /** key.substring(key.indexOf(".") + 1): the key without its group, the
      whole key when it has no dot. */
  function Stripped(key: string): string {
    if FirstDot(key) == |key| then key else key[FirstDot(key) + 1..]
  }

  /** A key is its group, a dot and its stripped form; a key without a dot
      is kept whole. */
  lemma StrippedParts(key: string)
    ensures '.' !in key ==> Stripped(key) == key
    ensures '.' in key ==> key == Before(key) + "." + Stripped(key) && '.' !in Before(key)
  {
    if '.' in key {
      var i := FirstDot(key);
      assert key == key[..i] + [key[i]] + key[i + 1..];
    }
  }

  /** The user keys resolveGroups reads a group from: not one of the
      group-independent keys. */
  predicate NamesGroup(key: string) {
    !Contains(key, LocaleResolverKey) && !Contains(key, MessageResolverKey) && !Contains(key, StandaloneKey)
  }

  /** resolveGroups: the prefix of every user key that names a group, and
      the default group. */
  function ResolvedGroups(user: map<string, string>): (r: W.Result<set<string>>)
    ensures r.Err? <==> exists k :: k in user && NamesGroup(k) && '.' !in k
    ensures r.Ok? ==> DefaultGroupName in r.value
    ensures r.Ok? ==> forall k :: k in user && NamesGroup(k) ==> GroupOfKey(k).Ok? && GroupOfKey(k).value in r.value
    ensures r.Ok? ==> forall g :: g in r.value && g != DefaultGroupName ==>
                        exists k :: k in user && NamesGroup(k) && GroupOfKey(k) == W.Ok(g)
  {
    if exists k :: k in user && NamesGroup(k) && '.' !in k then W.Err(W.IndexOutOfBounds(-1))
    else W.Ok(GroupsOf(user.Keys) + {DefaultGroupName})
  }

  function GroupsOf(keys: set<string>): set<string> {
    set k | k in keys && NamesGroup(k) :: Before(k)
  }

  // ---------------------------------------------------------------------
  // Overlaying properties

  /** Which keys a copy loop of resolveConfigurations takes. */
  datatype Filter =
    | NotSpecial             // the defaults: not a resolver or standalone key, ignoring case
    | InGroup(group: string) // the user keys: startsWith(group)

  predicate Keeps(f: Filter, key: string) {
    match f
    case NotSpecial =>
      !EqualsIgnoreCase(key, LocaleResolverKey) && !EqualsIgnoreCase(key, MessageResolverKey) &&
      !EqualsIgnoreCase(key, StandaloneKey)
    case InGroup(g) => StartsWith(key, g)
  }

  /** The entries a copy loop takes. */
  function Kept(entries: map<string, string>, f: Filter): (r: map<string, string>)
    ensures forall k :: k in r <==> k in entries && Keeps(f, k)
    ensures forall k :: k in r ==> r[k] == entries[k]
  {
    map k | k in entries && Keeps(f, k) :: entries[k]
  }

  /** The keys the copy loop writes. */
  function StrippedKeys(puts: map<string, string>): set<string> {
    set k | k in puts :: Stripped(k)
  }

  /** Some entry stripped to `s` holds `v`. */
  ghost predicate PutFrom(puts: map<string, string>, s: string, v: string) {
    exists k :: k in puts && Stripped(k) == s && puts[k] == v
  }

  /** `r` is `base` after putting, in the iteration order of the
      properties, every entry of `puts` under its stripped key: the keys
      are those of `base` and the stripped ones; a stripped key holds the
      value of one of the entries stripped to it, and every other key keeps
      its value in `base`. */
  ghost predicate OverlaidBy(r: map<string, string>, base: map<string, string>, puts: map<string, string>) {
    r.Keys == base.Keys + StrippedKeys(puts) &&
    (forall s :: s in r && s !in StrippedKeys(puts) ==> r[s] == base[s]) &&
    (forall s :: s in StrippedKeys(puts) ==> PutFrom(puts, s, r[s]))
  }

  /** One of the copy loops: the entries `f` keeps, put over `base`. */
  method Overlay(base: map<string, string>, entries: map<string, string>, f: Filter) returns (r: map<string, string>)
    ensures OverlaidBy(r, base, Kept(entries, f))
  {
    var puts := Kept(entries, f);
    r := base;
    var pending := puts.Keys;
    ghost var done: map<string, string> := map[];
    while pending != {}
      invariant pending !! done.Keys && pending + done.Keys == puts.Keys
      invariant forall k :: k in done ==> done[k] == puts[k]
      invariant OverlaidBy(r, base, done)
      decreases pending
    {
      var k :| k in pending;
      OverlayStep(r, base, done, k, puts[k]);
      r := r[Stripped(k) := puts[k]];
      done := done[k := puts[k]];
      pending := pending - {k};
    }
    assert done == puts;
  }

  lemma StrippedKeysPut(puts: map<string, string>, k: string, v: string)
    ensures StrippedKeys(puts[k := v]) == StrippedKeys(puts) + {Stripped(k)}
  {
    forall s | s in StrippedKeys(puts)
      ensures s in StrippedKeys(puts[k := v])
    {
      var j :| j in puts && Stripped(j) == s;
      assert j in puts[k := v];
    }
    assert k in puts[k := v];
  }

  lemma OverlayStep(r: map<string, string>, base: map<string, string>, done: map<string, string>, k: string, v: string)
    requires OverlaidBy(r, base, done) && k !in done
    ensures OverlaidBy(r[Stripped(k) := v], base, done[k := v])
  {
    StrippedKeysPut(done, k, v);
    OverlayStepKept(r, base, done, k, v, r[Stripped(k) := v]);
    OverlayStepPut(r, base, done, k, v, r[Stripped(k) := v], done[k := v]);
  }

  /** A key the step does not write keeps its base value. */
  lemma OverlayStepKept(r: map<string, string>, base: map<string, string>, done: map<string, string>, k: string, v: string,
                        r': map<string, string>)
    requires OverlaidBy(r, base, done) && r' == r[Stripped(k) := v]
    ensures forall s :: s in r' && s !in StrippedKeys(done[k := v]) ==> r'[s] == base[s]
  {
    StrippedKeysPut(done, k, v);
  }

  /** Every written key holds the value of an entry stripped to it. */
  lemma OverlayStepPut(r: map<string, string>, base: map<string, string>, done: map<string, string>, k: string, v: string,
                       r': map<string, string>, done': map<string, string>)
    requires OverlaidBy(r, base, done) && k !in done
    requires r' == r[Stripped(k) := v] && done' == done[k := v]
    ensures forall s :: s in StrippedKeys(done') ==> PutFrom(done', s, r'[s])
  {
    StrippedKeysPut(done, k, v);
    assert PutFrom(done', Stripped(k), v) by {
      assert k in done' && done'[k] == v;
    }
    forall s | s in StrippedKeys(done') && s != Stripped(k)
      ensures PutFrom(done', s, r'[s])
    {
      assert PutFrom(done, s, r[s]);
      var j :| j in done && Stripped(j) == s && done[j] == r[s];
      assert j in done' && done'[j] == done[j];
    }
  }

  /** A user value wins over the base: an entry whose stripped key no other
      entry shares sets that key. */
  lemma OverlayWins(r: map<string, string>, base: map<string, string>, puts: map<string, string>, k: string)
    requires OverlaidBy(r, base, puts)
    requires k in puts
    requires forall j :: j in puts && Stripped(j) == Stripped(k) ==> j == k
    ensures Stripped(k) in r && r[Stripped(k)] == puts[k]
  {
    assert Stripped(k) in StrippedKeys(puts);
    assert PutFrom(puts, Stripped(k), r[Stripped(k)]);
  }

  // ---------------------------------------------------------------------
  // Collecting the options of a group

  /** What the per-group map is keyed by: as written the Option found,
      which for an export key is one shared option whatever the format;
      as intended, an export key keeps the name it was found under. */
  datatype Keying = ByOption | ByUserName

  datatype Setting =
    | Named(key: string)
    | Export(token: ExportPatterns.Token, userName: W.Option<string>)

  predicate ResolverKey(key: string) {
    key == LocaleResolverKey || key == MessageResolverKey
  }

  /** The setting a key finds, given its normalised form and what
      findByName answers for it. */
  function SettingOf(mode: Keying, found: O.Found, norm: string): W.Option<Setting> {
    match found
    case Registry(n) => W.Some(Named(n))
    case ExportOption(t) => W.Some(Export(t, if mode == ByOption then W.None else W.Some(norm)))
    case NotFound => W.None
  }

  /** A key of a group's properties once looked up: its normalised form and
      the setting it finds. */
  datatype Lookup = Lookup(norm: string, setting: W.Option<Setting>)

  /** What findByName (`find`, which is Options.Resolve over the registry)
      gives for each key of a group's properties, once the loader has
      normalised it with `norm` (trim, then toLowerCase: Options.Normalized). */
  function Lookups(mode: Keying, find: string -> O.Found, norm: string -> string, keys: set<string>): map<string, Lookup> {
    map k | k in keys :: Lookup(norm(k), SettingOf(mode, find(norm(k)), norm(k)))
  }

  /** The settings some key finds. */
  function FoundSettings(look: map<string, Lookup>): (r: map<string, Setting>)
    ensures forall k :: k in r <==> k in look && look[k].setting.Some?
    ensures forall k :: k in r ==> look[k].setting == W.Some(r[k])
  {
    map k | k in look && look[k].setting.Some? :: look[k].setting.value
  }

  /** The normalised keys that find no option, the resolver keys aside. */
  function UnknownKeys(look: map<string, Lookup>): set<string> {
    set k | k in look && look[k].setting.None? && !ResolverKey(look[k].norm) :: look[k].norm
  }

  function SettingsOf(ids: map<string, Setting>): set<Setting> {
    set k | k in ids :: ids[k]
  }

  /** Some key that finds `id` holds `v`. */
  ghost predicate ValueFrom(ids: map<string, Setting>, values: map<string, string>, id: Setting, v: string) {
    exists k :: k in ids && k in values && ids[k] == id && values[k] == v
  }

  /** `conf` is what putting, in the iteration order of the properties,
      each found setting with its value gives: an entry for every setting
      found, holding the value of one of the keys that find it. */
  ghost predicate CollectedBy(conf: map<Setting, string>, ids: map<string, Setting>, values: map<string, string>) {
    conf.Keys == SettingsOf(ids) &&
    forall id :: id in conf ==> ValueFrom(ids, values, id, conf[id])
  }

  /** The option loop of one group, given what findByName gives for each
      key: the setting a key finds is stored with its value, a key that
      finds nothing is recorded. */
  method Collect(look: map<string, Lookup>, grouped: map<string, string>)
    returns (conf: map<Setting, string>, wrong: set<string>)
    requires look.Keys == grouped.Keys
    ensures CollectedBy(conf, FoundSettings(look), grouped)
    ensures wrong == UnknownKeys(look)
  {
    conf, wrong := map[], {};
    var pending := grouped.Keys;
    ghost var seen: map<string, Lookup> := map[];
    while pending != {}
      invariant pending !! seen.Keys && pending + seen.Keys == look.Keys
      invariant forall k :: k in seen ==> seen[k] == look[k]
      invariant CollectedBy(conf, FoundSettings(seen), grouped)
      invariant wrong == UnknownKeys(seen)
      decreases pending
    {
      var k :| k in pending;
      var key := look[k].norm;
      var found := look[k].setting;
      UnknownStep(seen, k, look[k]);
      if found.Some? {
        FoundStep(seen, k, look[k]);
        CollectStep(conf, FoundSettings(seen), grouped, k, found.value);
        conf := conf[found.value := grouped[k]];
      } else {
        FoundStepNone(seen, k, look[k]);
        if !ResolverKey(key) {
          wrong := wrong + {key};
        }
      }
      seen := seen[k := look[k]];
      pending := pending - {k};
    }
    assert seen == look;
  }

  lemma FoundStep(look: map<string, Lookup>, k: string, l: Lookup)
    requires k !in look && l.setting.Some?
    ensures FoundSettings(look[k := l]) == FoundSettings(look)[k := l.setting.value]
  {
  }

  lemma FoundStepNone(look: map<string, Lookup>, k: string, l: Lookup)
    requires k !in look && l.setting.None?
    ensures FoundSettings(look[k := l]) == FoundSettings(look)
  {
  }

  lemma UnknownStep(look: map<string, Lookup>, k: string, l: Lookup)
    requires k !in look
    ensures UnknownKeys(look[k := l]) ==
            UnknownKeys(look) + (if l.setting.None? && !ResolverKey(l.norm) then {l.norm} else {})
  {
    var look' := look[k := l];
    assert k in look' && look'[k] == l;
    forall x | x in UnknownKeys(look)
      ensures x in UnknownKeys(look')
    {
      var j :| j in look && look[j].setting.None? && !ResolverKey(look[j].norm) && look[j].norm == x;
      assert j in look' && look'[j] == look[j];
    }
    forall x | x in UnknownKeys(look')
      ensures x in UnknownKeys(look) || (l.setting.None? && !ResolverKey(l.norm) && x == l.norm)
    {
      var j :| j in look' && look'[j].setting.None? && !ResolverKey(look'[j].norm) && look'[j].norm == x;
      if j != k {
        assert j in look && look[j] == look'[j];
      }
    }
  }

  lemma CollectStep(conf: map<Setting, string>, ids: map<string, Setting>, values: map<string, string>,
                    k: string, id: Setting)
    requires CollectedBy(conf, ids, values) && k !in ids && k in values
    ensures CollectedBy(conf[id := values[k]], ids[k := id], values)
  {
    var conf', ids' := conf[id := values[k]], ids[k := id];
    assert SettingsOf(ids') == SettingsOf(ids) + {id} by {
      forall x | x in SettingsOf(ids)
        ensures x in SettingsOf(ids')
      {
        var j :| j in ids && ids[j] == x;
        assert j in ids' && ids'[j] == x;
      }
      assert k in ids';
    }
    assert ValueFrom(ids', values, id, values[k]) by {
      assert k in ids' && ids'[k] == id;
    }
    forall x | x in conf' && x != id
      ensures ValueFrom(ids', values, x, conf'[x])
    {
      assert ValueFrom(ids, values, x, conf[x]);
      var j :| j in ids && j in values && ids[j] == x && values[j] == conf[x];
      assert j in ids' && ids'[j] == x;
    }
  }

  // ---------------------------------------------------------------------
  // The loader

  /** The per-group configurations resolveConfigurations fills in. */
  /** One group of resolveConfigurations: `props` is the global
      properties overlaid with the user keys the group's filter takes,
      `conf` maps the options those keys find to their values, and
      `unknown` holds the keys that find nothing. */
  ghost predicate GroupResolved(global: map<string, string>, user: map<string, string>, find: string -> O.Found,
                                norm: string -> string, g: string, props: map<string, string>,
                                conf: map<Setting, string>, unknown: set<string>) {
    OverlaidBy(props, global, Kept(user, InGroup(g))) &&
    CollectedBy(conf, FoundSettings(Lookups(ByOption, find, norm, props.Keys)), props) &&
    unknown == UnknownKeys(Lookups(ByOption, find, norm, props.Keys))
  }

  /** The body of the group loop of resolveConfigurations. */
  method ResolveGroup(global: map<string, string>, user: map<string, string>, find: string -> O.Found,
                      norm: string -> string, g: string)
    returns (props: map<string, string>, conf: map<Setting, string>, unknown: set<string>)
    ensures GroupResolved(global, user, find, norm, g, props, conf, unknown)
  {
    props := Overlay(global, user, InGroup(g));
    conf, unknown := Collect(Lookups(ByOption, find, norm, props.Keys), props);
  }

  class GroupConfs {
    var confs: map<string, map<Setting, string>>

    constructor ()
      ensures confs == map[]
    {
      confs := map[];
    }
  }

  /** What the group loop keeps for one group: its properties, its
      options and its unknown keys. */
  datatype GroupResult = GroupResult(props: map<string, string>, conf: map<Setting, string>, unknown: set<string>)

  /** Every group of `results` resolved. */
  ghost predicate ResolvedAll(global: map<string, string>, user: map<string, string>, find: string -> O.Found,
                              norm: string -> string, results: map<string, GroupResult>) {
    forall g :: g in results ==>
      GroupResolved(global, user, find, norm, g, results[g].props, results[g].conf, results[g].unknown)
  }

  /** Some group has a key that finds nothing. */
  predicate AnyUnknown(results: map<string, GroupResult>) {
    exists g :: g in results && results[g].unknown != {}
  }

  /** The options of each group, as resolveConfigurations stores them. */
  function ConfsOf(results: map<string, GroupResult>): (r: map<string, map<Setting, string>>)
    ensures r.Keys == results.Keys
    ensures forall g :: g in r ==> r[g] == results[g].conf
  {
    map g | g in results :: results[g].conf
  }

  /** The group loop of resolveConfigurations: every group of `all` is
      resolved, and the loop reports whether any key found nothing. */
  method ConfigureGroups(global: map<string, string>, user: map<string, string>, find: string -> O.Found,
                         norm: string -> string, all: set<string>)
    returns (results: map<string, GroupResult>, failed: bool)
    ensures results.Keys == all
    ensures ResolvedAll(global, user, find, norm, results)
    ensures failed <==> AnyUnknown(results)
  {
    var pending := all;
    results := map[];
    failed := false;
    while pending != {}
      invariant pending !! results.Keys && pending + results.Keys == all
      invariant ResolvedAll(global, user, find, norm, results)
      invariant failed <==> AnyUnknown(results)
      decreases pending
    {
      var g :| g in pending;
      var props, conf, unknown := ResolveGroup(global, user, find, norm, g);
      ResolvedAllPut(global, user, find, norm, results, g, GroupResult(props, conf, unknown));
      AnyUnknownPut(results, g, GroupResult(props, conf, unknown));
      results := results[g := GroupResult(props, conf, unknown)];
      failed := failed || unknown != {};
      pending := pending - {g};
    }
  }

  lemma ResolvedAllPut(global: map<string, string>, user: map<string, string>, find: string -> O.Found,
                       norm: string -> string, results: map<string, GroupResult>, g: string, res: GroupResult)
    requires ResolvedAll(global, user, find, norm, results)
    requires GroupResolved(global, user, find, norm, g, res.props, res.conf, res.unknown)
    ensures ResolvedAll(global, user, find, norm, results[g := res])
  {
  }

  lemma AnyUnknownPut(results: map<string, GroupResult>, g: string, res: GroupResult)
    requires g !in results
    ensures AnyUnknown(results[g := res]) <==> AnyUnknown(results) || res.unknown != {}
  {
    if AnyUnknown(results) {
      var h :| h in results && results[h].unknown != {};
      assert h in results[g := res];
    }
    if res.unknown != {} {
      assert g in results[g := res];
    }
  }

  class ConfigLoader {
    /** The default properties file; reading it is not part of this model. */
    const defaultProperties: PropertyMap?
    /** The user properties bundle; reading it is not part of this model. */
    const userProperties: PropertyMap?
    /** The groups resolveGroups found; null before it runs. */
    var groups: W.Option<set<string>>

    constructor (defaultProperties: PropertyMap?, userProperties: PropertyMap?)
      ensures this.defaultProperties == defaultProperties && this.userProperties == userProperties
      ensures groups.None?
    {
      this.defaultProperties, this.userProperties := defaultProperties, userProperties;
      groups := W.None;
    }

    /** resolveGroups: without user properties only the default group. */
    method ResolveGroups() returns (r: W.Result<set<string>>)
      modifies this
      ensures userProperties == null ==> r == W.Ok({DefaultGroupName})
      ensures userProperties != null ==> r == ResolvedGroups(userProperties.entries)
      ensures r.Ok? ==> groups == W.Some(r.value)
      ensures r.Err? ==> groups == old(groups)
    {
      if userProperties == null {
        groups := W.Some({DefaultGroupName});
        return W.Ok({DefaultGroupName});
      }
      var user := userProperties.entries;
      var found: set<string> := {};
      var pending := user.Keys;
      ghost var done: set<string> := {};
      while pending != {}
        invariant pending !! done && pending + done == user.Keys
        invariant forall k :: k in done && NamesGroup(k) ==> '.' in k
        invariant found == GroupsOf(done)
        decreases pending
      {
        var k :| k in pending;
        if NamesGroup(k) {
          var g := GroupOfKey(k);
          if g.Err? {
            return W.Err(g.error);
          }
          found := found + {g.value};
        }
        assert GroupsOf(done + {k}) == GroupsOf(done) + (if NamesGroup(k) then {Before(k)} else {});
        done := done + {k};
        pending := pending - {k};
      }
      assert done == user.Keys;
      found := found + {DefaultGroupName};
      groups := W.Some(found);
      r := W.Ok(found);
    }

    /** resolveConfigurations: the global properties are the default ones
        and the user's `global` ones, stripped of their group; each group
        takes the global properties overlaid with the user keys that start
        with its name, and gets one entry in `target` mapping the options
        those keys find to their values. A key that finds no option, the
        resolver keys aside, makes the whole call fail once every group is
        stored. */
    method ResolveConfigurations(find: string -> O.Found, norm: string -> string, target: GroupConfs)
      returns (r: W.Result<()>, ghost defaults: map<string, string>, ghost global: map<string, string>,
               ghost results: map<string, GroupResult>)
      modifies target
      ensures defaultProperties == null || userProperties == null || groups.None? ==>
                r.Err? && r.error.NullPointer? && unchanged(target)
      ensures defaultProperties != null && userProperties != null && groups.Some? ==>
                OverlaidBy(defaults, map[], Kept(defaultProperties.entries, NotSpecial)) &&
                OverlaidBy(global, defaults, Kept(userProperties.entries, InGroup(DefaultGroupName))) &&
                results.Keys == groups.value &&
                ResolvedAll(global, userProperties.entries, find, norm, results) &&
                target.confs == old(target.confs) + ConfsOf(results) &&
                (r.Err? <==> AnyUnknown(results)) &&
                (r.Err? ==> r.error.Configuration?)
    {
      if defaultProperties == null || userProperties == null || groups.None? {
        return W.Err(W.NullPointer("properties")), map[], map[], map[];
      }
      var user := userProperties.entries;
      var stripped := Overlay(map[], defaultProperties.entries, NotSpecial);
      var globalProperties := Overlay(stripped, user, InGroup(DefaultGroupName));
      defaults, global := stripped, globalProperties;
      var resolved, failed := ConfigureGroups(globalProperties, user, find, norm, groups.value);
      results := resolved;
      target.confs := target.confs + ConfsOf(resolved);
      assert userProperties.entries == user && defaultProperties.entries == old(defaultProperties.entries);
      r := if failed then W.Err(W.Configuration("Some properties of your configuration file are not recognized."))
           else W.Ok(());
    }
  }

  // ---------------------------------------------------------------------
  // Properties of the group resolution

  /** A key contributes to the group resolveGroups reads from it: a key
      starting with `g.` names the group `g`, and no other. This holds for
      the intended filter `startsWith(g + ".")`. */
  lemma GroupKeysIntended(g: string, key: string)
    requires '.' !in g
    ensures StartsWith(key, g + ".") <==> GroupOfKey(key) == W.Ok(g)
  {
    if StartsWith(key, g + ".") {
      assert key[|g|] == '.';
      assert forall j :: 0 <= j < |g| ==> key[j] == g[j];
      assert FirstDot(key) == |g|;
      assert Before(key) == g;
    }
  }

  /** User properties with the groups `group1` and `group10`. */
  const TwoGroups: map<string, string> := map["group1.a" := "x", "group10.b" := "y"]

  /** Both keys of TwoGroups name a group. */
  lemma TwoGroupsResolved()
    ensures ResolvedGroups(TwoGroups) == W.Ok({"group1", "group10", DefaultGroupName})
  {
    TwoGroupsDotted();
    ResolvedWhenDotted(TwoGroups);
    TwoGroupsGroups();
    assert {"group1", "group10"} + {DefaultGroupName} == {"group1", "group10", DefaultGroupName};
  }

  lemma TwoGroupsDotted()
    ensures TwoGroups.Keys == {"group1.a", "group10.b"}
    ensures forall k :: k in TwoGroups ==> '.' in k
  {
    TwoGroupsNamed();
  }

  lemma TwoGroupsGroups()
    ensures GroupsOf(TwoGroups.Keys) == {"group1", "group10"}
  {
    TwoGroupsDotted();
    TwoGroupsNamed();
    GroupsOfPair("group1.a", "group10.b");
  }

  /** When every key that names a group has a dot, the groups resolve. */
  lemma ResolvedWhenDotted(user: map<string, string>)
    requires forall k :: k in user ==> '.' in k
    ensures ResolvedGroups(user) == W.Ok(GroupsOf(user.Keys) + {DefaultGroupName})
  {
  }

  lemma TwoGroupsNamed()
    ensures NamesGroup("group1.a") && '.' in "group1.a" && Before("group1.a") == "group1"
    ensures NamesGroup("group10.b") && '.' in "group10.b" && Before("group10.b") == "group10"
  {
    DottedKeyNamed("group1.a", "group1", "a");
    DottedKeyNamed("group10.b", "group10", "b");
  }

  /** A key made of a group without dots nor the letters of the special
      keys, a dot and a rest names that group. */
  lemma DottedKeyNamed(key: string, group: string, rest: string)
    requires key == group + "." + rest
    requires forall j :: 0 <= j < |group| ==> group[j] != '.'
    requires forall j :: 0 <= j < |key| ==> key[j] != 'i' && key[j] != 'm'
    ensures NamesGroup(key) && '.' in key && Before(key) == group
  {
    assert key[|group|] == '.';
    FirstDotAt(key, |group|);
    assert key[..|group|] == group;
    NamesGroupOf(key);
  }

  lemma GroupsOfPair(k1: string, k2: string)
    requires NamesGroup(k1) && NamesGroup(k2)
    ensures GroupsOf({k1, k2}) == {Before(k1), Before(k2)}
  {
    assert Before(k1) in GroupsOf({k1, k2});
    assert Before(k2) in GroupsOf({k1, k2});
  }

  /** The filter of `group1`, as written, keeps both keys of TwoGroups. */
  lemma TwoGroupsKept()
    ensures Kept(TwoGroups, InGroup("group1")) == TwoGroups
    ensures Stripped("group1.a") == "a" && Stripped("group10.b") == "b"
  {
    assert StartsWith("group1.a", "group1");
    assert StartsWith("group10.b", "group1");
    FirstDotAt("group1.a", 6);
    FirstDotAt("group10.b", 7);
  }

  /** As written, the filter `startsWith(g)` also takes the keys of every
      group whose name extends `g`: `group1` gets the properties of
      `group10`. */
  lemma LongerGroupKeysTaken(r: map<string, string>, base: map<string, string>)
    requires OverlaidBy(r, base, Kept(TwoGroups, InGroup("group1")))
    ensures ResolvedGroups(TwoGroups) == W.Ok({"group1", "group10", DefaultGroupName})
    ensures "b" in r && r["b"] == "y"
  {
    TwoGroupsResolved();
    Group1TakesGroup10(r, base);
  }

  lemma Group1TakesGroup10(r: map<string, string>, base: map<string, string>)
    requires OverlaidBy(r, base, Kept(TwoGroups, InGroup("group1")))
    ensures "b" in r && r["b"] == "y"
  {
    TwoGroupsKept();
    assert TwoGroups.Keys == {"group1.a", "group10.b"};
    OverlayWins(r, base, TwoGroups, "group10.b");
  }

  lemma FirstDotAt(key: string, i: nat)
    requires i < |key| && key[i] == '.' && forall j :: 0 <= j < i ==> key[j] != '.'
    ensures FirstDot(key) == i
  {
  }

  /** A key without the letters `i` and `m` contains none of the three
      special keys. */
  lemma NamesGroupOf(key: string)
    requires forall j :: 0 <= j < |key| ==> key[j] != 'i' && key[j] != 'm'
    ensures NamesGroup(key)
  {
    NoLetterNotContained(key, LocaleResolverKey);
    NoLetterNotContained(key, MessageResolverKey);
    NoLetterNotContained(key, StandaloneKey);
  }

  lemma {:induction false} NoLetterNotContained(s: string, sub: string)
    requires |sub| > 0 && (sub[0] == 'i' || sub[0] == 'm')
    requires forall j :: 0 <= j < |s| ==> s[j] != 'i' && s[j] != 'm'
    ensures !Contains(s, sub)
    decreases |s|
  {
    if |s| > 0 {
      NoLetterNotContained(s[1..], sub);
    }
  }

  // ---------------------------------------------------------------------
  // Properties of the option collection

  /** As written, two export keys of the same field for different formats
      find the one shared export option, so the group keeps a single
      entry and one of the two values is lost. */
  lemma ExportKeysCollide(byName: map<string, O.Option>, find: string -> O.Found, norm: string -> string, f1: string, f2: string,
                          v1: string, v2: string, conf: map<Setting, string>)
    requires ExportPatterns.PlainFormat(f1) && ExportPatterns.PlainFormat(f2) && f1 != f2
    requires var k1 := ExportPatterns.Prefix + f1 + ExportPatterns.Suffix(ExportPatterns.CLASS);
             var k2 := ExportPatterns.Prefix + f2 + ExportPatterns.Suffix(ExportPatterns.CLASS);
             find(k1) == O.Resolve(byName, k1) && find(k2) == O.Resolve(byName, k2) &&
             norm(k1) == k1 && norm(k2) == k2 && O.Normalized(k1) !in byName && O.Normalized(k2) !in byName &&
             CollectedBy(conf, FoundSettings(Lookups(ByOption, find, norm, {k1, k2})), map[k1 := v1, k2 := v2])
    ensures conf == map[Export(ExportPatterns.CLASS, W.None) := v1] || conf == map[Export(ExportPatterns.CLASS, W.None) := v2]
  {
    var k1 := ExportPatterns.Prefix + f1 + ExportPatterns.Suffix(ExportPatterns.CLASS);
    var k2 := ExportPatterns.Prefix + f2 + ExportPatterns.Suffix(ExportPatterns.CLASS);
    O.ExportKeyFound(byName, f1, ExportPatterns.CLASS);
    O.ExportKeyFound(byName, f2, ExportPatterns.CLASS);
    assert k1 != k2 by {
      assert k1[7..7 + |f1|] == f1;
      assert k2[7..7 + |f2|] == f2;
    }
    SharedExportKey(find, norm, k1, k2, v1, v2, conf);
  }

  /** Two keys that find the one export option leave a single entry. */
  lemma SharedExportKey(find: string -> O.Found, norm: string -> string, k1: string, k2: string,
                        v1: string, v2: string, conf: map<Setting, string>)
    requires k1 != k2 && norm(k1) == k1 && norm(k2) == k2
    requires find(k1) == O.ExportOption(ExportPatterns.CLASS) && find(k2) == O.ExportOption(ExportPatterns.CLASS)
    requires CollectedBy(conf, FoundSettings(Lookups(ByOption, find, norm, {k1, k2})), map[k1 := v1, k2 := v2])
    ensures conf == map[Export(ExportPatterns.CLASS, W.None) := v1] || conf == map[Export(ExportPatterns.CLASS, W.None) := v2]
  {
    var id := Export(ExportPatterns.CLASS, W.None);
    var look := Lookups(ByOption, find, norm, {k1, k2});
    assert look == map[k1 := Lookup(k1, W.Some(id)), k2 := Lookup(k2, W.Some(id))];
    assert FoundSettings(look) == map[k1 := id, k2 := id];
    CollectedOneSetting(conf, k1, k2, v1, v2, id);
  }

  /** Two keys that find the same setting leave one entry, holding one of
      their values. */
  lemma CollectedOneSetting(conf: map<Setting, string>, k1: string, k2: string, v1: string, v2: string, id: Setting)
    requires k1 != k2
    requires CollectedBy(conf, map[k1 := id, k2 := id], map[k1 := v1, k2 := v2])
    ensures conf == map[id := v1] || conf == map[id := v2]
  {
    var ids, values := map[k1 := id, k2 := id], map[k1 := v1, k2 := v2];
    assert SettingsOf(ids) == {id} by {
      assert ids[k1] == id;
    }
    assert ValueFrom(ids, values, id, conf[id]);
    var k :| k in ids && k in values && ids[k] == id && values[k] == conf[id];
    if k == k1 {
      assert conf == map[id := v1];
    } else {
      assert conf == map[id := v2];
    }
  }

  /** Keyed as intended, every export key a group's properties hold keeps
      its own value. */
  lemma ExportKeysKept(find: string -> O.Found, norm: string -> string, grouped: map<string, string>, conf: map<Setting, string>, k: string)
    requires CollectedBy(conf, FoundSettings(Lookups(ByUserName, find, norm, grouped.Keys)), grouped)
    requires k in grouped && find(norm(k)).ExportOption?
    requires forall j :: j in grouped && norm(j) == norm(k) ==> j == k
    ensures var id := Export(find(norm(k)).token, W.Some(norm(k)));
            id in conf && conf[id] == grouped[k]
  {
    var look := Lookups(ByUserName, find, norm, grouped.Keys);
    var ids := FoundSettings(look);
    var n := norm(k);
    var id := Export(find(n).token, W.Some(n));
    assert look[k].setting == W.Some(id);
    assert id in SettingsOf(ids) by {
      assert k in ids;
    }
    assert ValueFrom(ids, grouped, id, conf[id]);
    var j :| j in ids && j in grouped && ids[j] == id && grouped[j] == conf[id];
    var nj := norm(j);
    assert look[j] == Lookup(nj, SettingOf(ByUserName, find(nj), nj));
    assert nj == n;
  }
}
