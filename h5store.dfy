/**
 * The contents of the HDF5 file behind a QPImage, as a value: named groups,
 * each holding the raw image of one field and its background components,
 * and the file's scalar attributes. The operations here are the writes the
 * container performs through its two image-data objects (`Amplitude` and
 * `Phase`, wrapping the groups "amplitude" and "phase").
 */
module H5Store {
  import opened Wrappers

  /**
   * One image-data group: the "raw" dataset, absent until written, and the
   * background components by key ("ramp", "data", ...). A cleared component
   * is absent.
   */
  datatype Layers<A> = Layers(raw: Option<A>, bg: map<string, A>)

  /** An HDF5 file: its top-level groups and its attributes. */
  datatype Store<A> = Store(groups: map<string, Layers<A>>, attrs: map<string, real>)

  const AmplitudeGroup: string := "amplitude"
  const PhaseGroup: string := "phase"

  /** The contents of a freshly created group. */
  function EmptyLayers<A>(): (l: Layers<A>)
    ensures l.raw.None? && |l.bg| == 0
  {
    Layers(None, map[])
  }

  /** The contents of a new file, or of the in-memory file used when none is named. */
  function EmptyStore<A>(): (s: Store<A>)
    ensures |s.groups| == 0 && |s.attrs| == 0
  {
    Store(map[], map[])
  }

  /** The container's two groups are present. */
  predicate HasGroups<A>(s: Store<A>) {
    AmplitudeGroup in s.groups && PhaseGroup in s.groups
  }

  /** `create_group(name)`: adds an empty group; the name must be new. */
  function CreateGroup<A>(s: Store<A>, name: string): (r: Store<A>)
    requires name !in s.groups
    ensures r.attrs == s.attrs
    ensures r.groups.Keys == s.groups.Keys + {name}
    ensures r.groups[name] == EmptyLayers()
    ensures forall g :: g in s.groups ==> r.groups[g] == s.groups[g]
  {
    s.(groups := s.groups[name := EmptyLayers()])
  }

  /** `if name not in h5: h5.create_group(name)`. */
  function EnsureGroup<A>(s: Store<A>, name: string): (r: Store<A>)
    ensures r.attrs == s.attrs
    ensures r.groups.Keys == s.groups.Keys + {name}
    ensures forall g :: g in s.groups ==> r.groups[g] == s.groups[g]
    ensures name !in s.groups ==> r.groups[name] == EmptyLayers()
  {
    if name in s.groups then s else CreateGroup(s, name)
  }

  /** `EnsureGroup` for each of `names` in turn. */
  function EnsureGroups<A>(s: Store<A>, names: seq<string>): (r: Store<A>)
    decreases |names|
  {
    if names == [] then s
    else EnsureGroup(EnsureGroups(s, names[..|names| - 1]), names[|names| - 1])
  }

  /** `EnsureGroups` for the first i + 1 names is `EnsureGroup` of name i after the first i. */
  lemma EnsureGroupsPrefix<A>(s: Store<A>, names: seq<string>, i: nat)
    requires i < |names|
    ensures EnsureGroups(s, names[..i + 1]) == EnsureGroup(EnsureGroups(s, names[..i]), names[i])
  {
    assert names[..i + 1][..i] == names[..i];
  }

  /**
   * The file once both container groups exist: what was there is kept,
   * and a missing group is added empty.
   */
  function WithGroups<A>(s: Store<A>): (r: Store<A>)
    ensures HasGroups(r) && r.attrs == s.attrs
    ensures r.groups.Keys == s.groups.Keys + {AmplitudeGroup, PhaseGroup}
    ensures forall g :: g in s.groups ==> r.groups[g] == s.groups[g]
    ensures forall g :: g in r.groups && g !in s.groups ==> r.groups[g] == EmptyLayers()
  {
    var names := [AmplitudeGroup, PhaseGroup];
    var t := EnsureGroup(s, AmplitudeGroup);
    assert [AmplitudeGroup][..0] == [];
    assert EnsureGroups(s, [AmplitudeGroup]) == t;
    assert names[..1] == [AmplitudeGroup];
    assert EnsureGroups(s, names) == EnsureGroup(t, PhaseGroup);
    EnsureGroups(s, names)
  }

  /** Adding the groups to a file that has them changes nothing. */
  lemma WithGroupsKeepsComplete<A>(s: Store<A>)
    requires HasGroups(s)
    ensures WithGroups(s) == s
  {
    assert WithGroups(s).groups == s.groups;
  }

  /** Adding the groups is idempotent. */
  lemma WithGroupsIdempotent<A>(s: Store<A>)
    ensures WithGroups(WithGroups(s)) == WithGroups(s)
  {
    WithGroupsKeepsComplete(WithGroups(s));
  }

  /**
   * `set_bg(bg, key)` of an image-data object: `None` clears the component
   * `key`, any other value becomes that component. Nothing else changes.
   */
  function SetBg<A>(l: Layers<A>, bg: Option<A>, key: string): (r: Layers<A>)
    ensures r.raw == l.raw
    ensures bg.None? ==> key !in r.bg
    ensures bg.Some? ==> key in r.bg && r.bg[key] == bg.value
    ensures forall k :: k != key ==> (k in r.bg <==> k in l.bg)
    ensures forall k :: k != key && k in r.bg ==> r.bg[k] == l.bg[k]
  {
    match bg
    case None => l.(bg := l.bg - {key})
    case Some(v) => l.(bg := l.bg[key := v])
  }

  /** `set_bg` applied to the group `group` of the file. */
  function SetGroupBg<A>(s: Store<A>, group: string, bg: Option<A>, key: string): (r: Store<A>)
    requires group in s.groups
    ensures r.attrs == s.attrs && r.groups.Keys == s.groups.Keys
    ensures r.groups[group] == SetBg(s.groups[group], bg, key)
    ensures forall g :: g in s.groups && g != group ==> r.groups[g] == s.groups[g]
  {
    s.(groups := s.groups[group := SetBg(s.groups[group], bg, key)])
  }

  /** `image_data["raw"] = raw` on the group `group`: only its raw image changes. */
  function SetGroupRaw<A>(s: Store<A>, group: string, raw: A): (r: Store<A>)
    requires group in s.groups
    ensures r.attrs == s.attrs && r.groups.Keys == s.groups.Keys
    ensures r.groups[group] == s.groups[group].(raw := Some(raw))
    ensures forall g :: g in s.groups && g != group ==> r.groups[g] == s.groups[g]
  {
    s.(groups := s.groups[group := s.groups[group].(raw := Some(raw))])
  }
}
