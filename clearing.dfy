/**
 * The pure part of `QPImage.clear_bg`: which arguments it accepts, which
 * image-data objects it selects, the sequence of `set_bg(None, key)` calls
 * it makes, and what those calls leave in the file.
 */
module Clearing {
  import opened Wrappers
  import opened Errors
  import opened H5Store

  /** The two image-data objects of a QPImage: `_amp` and `_pha`. */
  datatype FieldName = Amplitude | Phase

  /** The group an image-data object wraps. */
  function GroupOf(f: FieldName): (g: string)
    ensures g in DataNames
    ensures f == Amplitude <==> g == AmplitudeGroup
  {
    match f
    case Amplitude => AmplitudeGroup
    case Phase => PhaseGroup
  }

  /** The names `clear_bg` accepts in `data_names`. */
  const DataNames: seq<string> := [AmplitudeGroup, PhaseGroup]

  /** The keys `clear_bg` accepts in `keys`. */
  const BgKeys: seq<string> := ["ramp", "data"]

  /** Every element of `xs` is one of `allowed`. */
  predicate AllIn(xs: seq<string>, allowed: seq<string>) {
    forall i :: 0 <= i < |xs| ==> xs[i] in allowed
  }

  /** The index of the first element of `xs` outside `allowed`, if any. */
  function FirstOutside(xs: seq<string>, allowed: seq<string>): (r: Option<nat>)
    ensures r.None? <==> AllIn(xs, allowed)
    ensures r.Some? ==> r.value < |xs| && xs[r.value] !in allowed
    ensures r.Some? ==> forall j :: 0 <= j < r.value ==> xs[j] in allowed
  {
    if xs == [] then None
    else if xs[0] !in allowed then Some(0)
    else match FirstOutside(xs[1..], allowed)
      case None => None
      case Some(i) => Some(i + 1)
  }

  /** The image-data objects a (validated) `data_names` selects, amplitude first. */
  function Selected(dataNames: seq<string>): (fields: seq<FieldName>)
    ensures forall f :: f in fields <==> GroupOf(f) in dataNames
    ensures |fields| <= 2 && (|fields| == 2 ==> fields == [Amplitude, Phase])
  {
    (if AmplitudeGroup in dataNames then [Amplitude] else [])
    + (if PhaseGroup in dataNames then [Phase] else [])
  }

  /**
   * What `clear_bg` decides before it clears anything: the first name
   * outside {amplitude, phase} fails, then the first key outside
   * {ramp, data}, then an empty selection; otherwise the selected
   * image-data objects, each once, amplitude before phase.
   */
  function ClearSelection(dataNames: seq<string>, keys: seq<string>): (r: Result<seq<FieldName>, Error>)
    ensures r.Success? <==> AllIn(dataNames, DataNames) && AllIn(keys, BgKeys) && |dataNames| > 0
    ensures !AllIn(dataNames, DataNames) ==>
      r.Failure? && r.error.BadDataName? && r.error.name !in DataNames
    ensures AllIn(dataNames, DataNames) && !AllIn(keys, BgKeys) ==>
      r.Failure? && r.error.BadBgKey? && r.error.key !in BgKeys
    ensures AllIn(dataNames, DataNames) && AllIn(keys, BgKeys) && |dataNames| == 0 ==>
      r == Failure(NoDataName)
    ensures r.Success? ==>
      (forall f :: f in r.value <==> GroupOf(f) in dataNames)
      && 1 <= |r.value| <= 2 && (|r.value| == 2 ==> r.value == [Amplitude, Phase])
  {
    match FirstOutside(dataNames, DataNames)
    case Some(i) => Failure(BadDataName(dataNames[i]))
    case None =>
      match FirstOutside(keys, BgKeys)
      case Some(i) => Failure(BadBgKey(keys[i]))
      case None =>
        var fields := Selected(dataNames);
        if fields == [] then Failure(NoDataName)
        else Success(fields)
  }

  /**
   * The name or key `clear_bg` rejects is the first bad one: everything
   * before it in its list passed the assertion.
   */
  lemma ClearSelectionReportsFirst(dataNames: seq<string>, keys: seq<string>)
    ensures var r := ClearSelection(dataNames, keys);
      r.Failure? && r.error.BadDataName? ==>
        exists i :: 0 <= i < |dataNames| && dataNames[i] == r.error.name && AllIn(dataNames[..i], DataNames)
    ensures var r := ClearSelection(dataNames, keys);
      r.Failure? && r.error.BadBgKey? ==>
        exists i :: 0 <= i < |keys| && keys[i] == r.error.key && AllIn(keys[..i], BgKeys)
  {
    match FirstOutside(dataNames, DataNames)
    case Some(i) =>
      assert AllIn(dataNames[..i], DataNames);
    case None =>
      match FirstOutside(keys, BgKeys)
      case Some(i) =>
        assert AllIn(keys[..i], BgKeys);
      case None =>
  }

  /**
   * The validation loops and the construction of the `imdats` list at the
   * start of `clear_bg`.
   */
  method SelectImageData(dataNames: seq<string>, keys: seq<string>) returns (r: Result<seq<FieldName>, Error>)
    ensures r == ClearSelection(dataNames, keys)
  {
    for i := 0 to |dataNames|
      invariant forall j :: 0 <= j < i ==> dataNames[j] in DataNames
    {
      if dataNames[i] !in DataNames {
        return Failure(BadDataName(dataNames[i]));
      }
    }
    for i := 0 to |keys|
      invariant forall j :: 0 <= j < i ==> keys[j] in BgKeys
    {
      if keys[i] !in BgKeys {
        return Failure(BadBgKey(keys[i]));
      }
    }
    var imdats: seq<FieldName> := [];
    if AmplitudeGroup in dataNames {
      imdats := imdats + [Amplitude];
    }
    if PhaseGroup in dataNames {
      imdats := imdats + [Phase];
    }
    assert imdats == Selected(dataNames);
    if imdats == [] {
      return Failure(NoDataName);
    }
    return Success(imdats);
  }

  /** One `set_bg(None, key)` call on one image-data object. */
  datatype ClearCall = ClearCall(field: FieldName, key: string)

  /** The inner loop of `clear_bg` for one object: one call per key, in the given order. */
  function KeyCalls(f: FieldName, keys: seq<string>): (calls: seq<ClearCall>)
    ensures |calls| == |keys|
    ensures forall j :: 0 <= j < |keys| ==> calls[j] == ClearCall(f, keys[j])
  {
    seq(|keys|, j requires 0 <= j < |keys| => ClearCall(f, keys[j]))
  }

  /** Both loops of `clear_bg`: for each selected object in turn, its calls for all keys. */
  function ClearCalls(fields: seq<FieldName>, keys: seq<string>): (calls: seq<ClearCall>)
    decreases |fields|
  {
    if fields == [] then []
    else ClearCalls(fields[..|fields| - 1], keys) + KeyCalls(fields[|fields| - 1], keys)
  }

  /** The file after performing `calls` one after the other. */
  function ApplyClears<A>(s: Store<A>, calls: seq<ClearCall>): (r: Store<A>)
    requires HasGroups(s)
    ensures r.groups.Keys == s.groups.Keys && r.attrs == s.attrs
    decreases |calls|
  {
    if calls == [] then s
    else
      var last := calls[|calls| - 1];
      SetGroupBg(ApplyClears(s, calls[..|calls| - 1]), GroupOf(last.field), None, last.key)
  }

  /** The groups of the objects in `fields`. */
  function GroupsOf(fields: set<FieldName>): (gs: set<string>)
    ensures forall f :: f in fields <==> GroupOf(f) in gs
    ensures gs <= {AmplitudeGroup, PhaseGroup}
  {
    (if Amplitude in fields then {AmplitudeGroup} else {})
    + (if Phase in fields then {PhaseGroup} else {})
  }

  /** A group with the components `keys` removed: its raw image and other components are kept. */
  function ClearLayers<A>(l: Layers<A>, keys: seq<string>): (r: Layers<A>)
    ensures r.raw == l.raw
    ensures forall k :: k in r.bg <==> k in l.bg && k !in keys
    ensures forall k :: k in r.bg ==> r.bg[k] == l.bg[k]
  {
    l.(bg := map k | k in l.bg && k !in keys :: l.bg[k])
  }

  /**
   * The file with the components `keys` removed from the groups of
   * `fields` and everything else as it was.
   */
  function ClearedStore<A>(s: Store<A>, fields: set<FieldName>, keys: seq<string>): (r: Store<A>)
    ensures r.attrs == s.attrs && r.groups.Keys == s.groups.Keys
    ensures forall g :: g in s.groups && g in GroupsOf(fields) ==> r.groups[g] == ClearLayers(s.groups[g], keys)
    ensures forall g :: g in s.groups && g !in GroupsOf(fields) ==> r.groups[g] == s.groups[g]
  {
    var gs := GroupsOf(fields);
    s.(groups := map g | g in s.groups :: if g in gs then ClearLayers(s.groups[g], keys) else s.groups[g])
  }

  /** Performing one list of calls and then another is performing their concatenation. */
  lemma {:induction false} ApplyClearsAppend<A>(s: Store<A>, xs: seq<ClearCall>, ys: seq<ClearCall>)
    requires HasGroups(s)
    ensures HasGroups(ApplyClears(s, xs))
    ensures ApplyClears(s, xs + ys) == ApplyClears(ApplyClears(s, xs), ys)
    decreases |ys|
  {
    if ys == [] {
      assert xs + ys == xs;
    } else {
      var n := |ys| - 1;
      assert (xs + ys)[..|xs + ys| - 1] == xs + ys[..n];
      assert (xs + ys)[|xs + ys| - 1] == ys[n];
      ApplyClearsAppend(s, xs, ys[..n]);
    }
  }

  /** Removing no keys leaves a group as it is. */
  lemma ClearLayersNothing<A>(l: Layers<A>)
    ensures ClearLayers(l, []) == l
  {
    assert ClearLayers(l, []).bg == l.bg;
  }

  /** Removing the keys and then one more is removing the extended list. */
  lemma ClearLayersSnoc<A>(l: Layers<A>, keys: seq<string>, k: string)
    ensures SetBg(ClearLayers(l, keys), None, k) == ClearLayers(l, keys + [k])
  {
    assert SetBg(ClearLayers(l, keys), None, k).bg == ClearLayers(l, keys + [k]).bg;
  }

  /** Removing the same keys twice is removing them once. */
  lemma ClearLayersTwice<A>(l: Layers<A>, keys: seq<string>)
    ensures ClearLayers(ClearLayers(l, keys), keys) == ClearLayers(l, keys)
  {
    assert ClearLayers(ClearLayers(l, keys), keys).bg == ClearLayers(l, keys).bg;
  }

  /** Clearing one more key of one object's group. */
  lemma ClearedStoreSnoc<A>(s: Store<A>, f: FieldName, keys: seq<string>, k: string)
    requires HasGroups(s)
    ensures SetGroupBg(ClearedStore(s, {f}, keys), GroupOf(f), None, k) == ClearedStore(s, {f}, keys + [k])
  {
    var g := GroupOf(f);
    var after := SetGroupBg(ClearedStore(s, {f}, keys), g, None, k);
    var r := ClearedStore(s, {f}, keys + [k]);
    assert GroupsOf({f}) == {g};
    forall h | h in s.groups
      ensures after.groups[h] == r.groups[h]
    {
      if h == g {
        ClearLayersSnoc(s.groups[g], keys, k);
      }
    }
    assert after.groups == r.groups;
  }

  /** The calls for one object remove exactly the listed keys from its group. */
  lemma {:induction false} KeyCallsEffect<A>(s: Store<A>, f: FieldName, keys: seq<string>)
    requires HasGroups(s)
    ensures ApplyClears(s, KeyCalls(f, keys)) == ClearedStore(s, {f}, keys)
    decreases |keys|
  {
    if keys == [] {
      assert KeyCalls(f, keys) == [];
      ClearLayersNothing(s.groups[GroupOf(f)]);
      assert GroupsOf({f}) == {GroupOf(f)};
      assert ClearedStore(s, {f}, keys).groups == s.groups;
    } else {
      var n := |keys| - 1;
      KeyCallsSnoc(f, keys, n);
      assert keys[..n + 1] == keys;
      KeyCallsEffect(s, f, keys[..n]);
      ApplyClearsSnoc(s, KeyCalls(f, keys[..n]), ClearCall(f, keys[n]));
      ClearedStoreSnoc(s, f, keys[..n], keys[n]);
      assert keys[..n] + [keys[n]] == keys;
    }
  }

  /** Clearing the same keys for two sets of objects one after the other. */
  lemma ClearedStoreCompose<A>(s: Store<A>, fs: set<FieldName>, gs: set<FieldName>, keys: seq<string>)
    ensures ClearedStore(ClearedStore(s, fs, keys), gs, keys) == ClearedStore(s, fs + gs, keys)
  {
    var lhs := ClearedStore(ClearedStore(s, fs, keys), gs, keys);
    var rhs := ClearedStore(s, fs + gs, keys);
    forall g | g in s.groups
      ensures lhs.groups[g] == rhs.groups[g]
    {
      ClearLayersTwice(s.groups[g], keys);
    }
    assert lhs.groups == rhs.groups;
  }

  /** Performing one more call after a list of them. */
  lemma ApplyClearsSnoc<A>(s: Store<A>, calls: seq<ClearCall>, c: ClearCall)
    requires HasGroups(s)
    ensures HasGroups(ApplyClears(s, calls))
    ensures ApplyClears(s, calls + [c]) == SetGroupBg(ApplyClears(s, calls), GroupOf(c.field), None, c.key)
  {
    assert (calls + [c])[..|calls|] == calls;
  }

  /** The calls for the first j + 1 keys are those for the first j, then key j's. */
  lemma KeyCallsSnoc(f: FieldName, keys: seq<string>, j: nat)
    requires j < |keys|
    ensures KeyCalls(f, keys[..j + 1]) == KeyCalls(f, keys[..j]) + [ClearCall(f, keys[j])]
  {
  }

  /** The calls for all objects are those for all but the last, then the last's. */
  lemma ClearCallsSnoc(fields: seq<FieldName>, keys: seq<string>)
    requires fields != []
    ensures ClearCalls(fields, keys)
         == ClearCalls(fields[..|fields| - 1], keys) + KeyCalls(fields[|fields| - 1], keys)
  {
  }

  /** The calls for the first i + 1 objects are those for the first i, then object i's. */
  lemma ClearCallsPrefix(fields: seq<FieldName>, keys: seq<string>, i: nat)
    requires i < |fields|
    ensures ClearCalls(fields[..i + 1], keys) == ClearCalls(fields[..i], keys) + KeyCalls(fields[i], keys)
  {
    ClearCallsSnoc(fields[..i + 1], keys);
    assert fields[..i + 1][..i] == fields[..i];
  }

  /** The objects in a non-empty list are those in all but its last element, and the last. */
  lemma FieldsSnoc(fields: seq<FieldName>, init: seq<FieldName>, last: FieldName)
    requires fields != [] && init == fields[..|fields| - 1] && last == fields[|fields| - 1]
    ensures (set f | f in fields) == (set f | f in init) + {last}
  {
    assert fields == init + [last];
  }

  /**
   * One step of the inner loop of `clear_bg`: the calls for the first
   * j + 1 keys are those for the first j and then key j's, both as a
   * record appended to the earlier calls `t` and as their effect.
   */
  lemma KeyStep<A>(s: Store<A>, t: seq<ClearCall>, f: FieldName, keys: seq<string>, j: nat)
    requires HasGroups(s) && j < |keys|
    ensures HasGroups(ApplyClears(s, KeyCalls(f, keys[..j])))
    ensures ApplyClears(s, KeyCalls(f, keys[..j + 1]))
         == SetGroupBg(ApplyClears(s, KeyCalls(f, keys[..j])), GroupOf(f), None, keys[j])
    ensures t + KeyCalls(f, keys[..j + 1]) == (t + KeyCalls(f, keys[..j])) + [ClearCall(f, keys[j])]
  {
    KeyCallsSnoc(f, keys, j);
    ApplyClearsSnoc(s, KeyCalls(f, keys[..j]), ClearCall(f, keys[j]));
  }

  /**
   * One step of the outer loop of `clear_bg`: the calls for the first
   * i + 1 objects are those for the first i and then object i's.
   */
  lemma FieldStep<A>(s: Store<A>, t: seq<ClearCall>, fields: seq<FieldName>, keys: seq<string>, i: nat)
    requires HasGroups(s) && i < |fields|
    ensures HasGroups(ApplyClears(s, ClearCalls(fields[..i], keys)))
    ensures ApplyClears(s, ClearCalls(fields[..i + 1], keys))
         == ApplyClears(ApplyClears(s, ClearCalls(fields[..i], keys)), KeyCalls(fields[i], keys))
    ensures t + ClearCalls(fields[..i + 1], keys) == (t + ClearCalls(fields[..i], keys)) + KeyCalls(fields[i], keys)
  {
    ClearCallsPrefix(fields, keys, i);
    ApplyClearsAppend(s, ClearCalls(fields[..i], keys), KeyCalls(fields[i], keys));
  }

  /**
   * The calls `clear_bg` makes, performed in its order, remove the listed
   * keys from the selected groups and change nothing else.
   */
  lemma {:induction false} ClearsClosedForm<A>(s: Store<A>, fields: seq<FieldName>, keys: seq<string>)
    requires HasGroups(s)
    ensures ApplyClears(s, ClearCalls(fields, keys)) == ClearedStore(s, (set f | f in fields), keys)
    decreases |fields|
  {
    if fields == [] {
      assert ClearedStore(s, {}, keys).groups == s.groups;
    } else {
      var n := |fields| - 1;
      var init, last := fields[..n], fields[n];
      var before := set f | f in init;
      ClearsClosedForm(s, init, keys);
      var mid := ApplyClears(s, ClearCalls(init, keys));
      assert mid == ClearedStore(s, before, keys);
      ClearCallsSnoc(fields, keys);
      ApplyClearsAppend(s, ClearCalls(init, keys), KeyCalls(last, keys));
      KeyCallsEffect(mid, last, keys);
      assert ApplyClears(s, ClearCalls(fields, keys)) == ClearedStore(mid, {last}, keys);
      ClearedStoreCompose(s, before, {last}, keys);
      FieldsSnoc(fields, init, last);
    }
  }

  /** There is one call per selected object and key. */
  lemma {:induction false} ClearCallsLength(fields: seq<FieldName>, keys: seq<string>)
    ensures |ClearCalls(fields, keys)| == |fields| * |keys|
    decreases |fields|
  {
    if fields != [] {
      var n := |fields| - 1;
      ClearCallsLength(fields[..n], keys);
      assert n * |keys| + |keys| == (n + 1) * |keys|;
    }
  }

  /** Row i of an n-row table with k columns ends before row n begins. */
  lemma {:induction false} RowBound(i: nat, n: nat, j: nat, k: nat)
    requires i < n && j < k
    ensures i * k + j < n * k
    decreases n - i
  {
    if n == i + 1 {
      assert n * k == i * k + k;
    } else {
      RowBound(i, n - 1, j, k);
      assert n * k == (n - 1) * k + k;
    }
  }

  /**
   * The order of the calls: object by object as selected, and for each
   * object the keys in the order given.
   */
  lemma {:induction false} ClearCallsAt(fields: seq<FieldName>, keys: seq<string>, i: nat, j: nat)
    requires i < |fields| && j < |keys|
    ensures |ClearCalls(fields, keys)| == |fields| * |keys|
    ensures ClearCalls(fields, keys)[i * |keys| + j] == ClearCall(fields[i], keys[j])
    decreases |fields|
  {
    var n := |fields| - 1;
    var init := fields[..n];
    var k := |keys|;
    ClearCallsLength(fields, keys);
    ClearCallsLength(init, keys);
    ClearCallsSnoc(fields, keys);
    if i < n {
      ClearCallsAt(init, keys, i, j);
      RowBound(i, n, j, k);
    } else {
      assert i * k + j == n * k + j;
    }
  }
}
