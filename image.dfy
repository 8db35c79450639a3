/**
 * The quantitative phase image container `QPImage`: an HDF5 file holding an
 * "amplitude" and a "phase" group, written from decoded input data and
 * background data, plus the scalar metadata attributes.
 */
module Image {
  import opened Wrappers
  import opened Errors
  import opened Decoding
  import opened H5Store
  import opened Clearing

  const PixelSizeAttr: string := "pixel_size"
  const TimeAttr: string := "time"
  const WavelengthAttr: string := "wavelength"

  /** The background key under which background data is stored. */
  const DataKey: string := "data"

  /** The file left behind by an operation, and the exception it raised, if any. */
  datatype Outcome<A> = Outcome(store: Store<A>, err: Option<Error>)

  /** The removals `set_bg_data(None)` makes: the "data" component of the amplitude, then of the phase. */
  const DataClears: seq<ClearCall> := [ClearCall(Amplitude, DataKey), ClearCall(Phase, DataKey)]

  /** Python truthiness of an optional number: present and not zero. */
  predicate Truthy(v: Option<real>) {
    v.Some? && v.value != 0.0
  }

  /** `if value: attrs[name] = value`. */
  function SetAttrIfTruthy(attrs: map<string, real>, name: string, v: Option<real>): (r: map<string, real>)
    ensures forall k :: k != name ==> (k in r <==> k in attrs)
    ensures forall k :: k != name && k in r ==> r[k] == attrs[k]
    ensures name in r <==> name in attrs || Truthy(v)
    ensures name in r ==> r[name] == if Truthy(v) then v.value else attrs[name]
  {
    if Truthy(v) then attrs[name := v.value] else attrs
  }

  /**
   * The metadata step of the constructor: each of pixel size, time and
   * wavelength becomes an attribute only when truthy; the groups are kept.
   */
  function WithMeta<A>(s: Store<A>, pixelSize: Option<real>, wavelength: Option<real>, time: Option<real>): (r: Store<A>)
    ensures r.groups == s.groups
    ensures forall k :: k !in {PixelSizeAttr, TimeAttr, WavelengthAttr} ==>
      (k in r.attrs <==> k in s.attrs) && (k in r.attrs ==> r.attrs[k] == s.attrs[k])
    ensures Truthy(pixelSize) ==> PixelSizeAttr in r.attrs && r.attrs[PixelSizeAttr] == pixelSize.value
    ensures Truthy(time) ==> TimeAttr in r.attrs && r.attrs[TimeAttr] == time.value
    ensures Truthy(wavelength) ==> WavelengthAttr in r.attrs && r.attrs[WavelengthAttr] == wavelength.value
    ensures !Truthy(pixelSize) ==>
      (PixelSizeAttr in r.attrs <==> PixelSizeAttr in s.attrs) && (PixelSizeAttr in r.attrs ==> r.attrs[PixelSizeAttr] == s.attrs[PixelSizeAttr])
    ensures !Truthy(time) ==>
      (TimeAttr in r.attrs <==> TimeAttr in s.attrs) && (TimeAttr in r.attrs ==> r.attrs[TimeAttr] == s.attrs[TimeAttr])
    ensures !Truthy(wavelength) ==>
      (WavelengthAttr in r.attrs <==> WavelengthAttr in s.attrs) && (WavelengthAttr in r.attrs ==> r.attrs[WavelengthAttr] == s.attrs[WavelengthAttr])
    ensures !Truthy(pixelSize) && !Truthy(time) && !Truthy(wavelength) ==> r == s
  {
    var a1 := SetAttrIfTruthy(s.attrs, PixelSizeAttr, pixelSize);
    var a2 := SetAttrIfTruthy(a1, TimeAttr, time);
    var a3 := SetAttrIfTruthy(a2, WavelengthAttr, wavelength);
    s.(attrs := a3)
  }

  /**
   * `set_bg_data`: a `None` background clears the "data" component of both
   * fields; any other background is decoded under the same tag and becomes
   * their "data" component. When decoding fails nothing is written.
   */
  function SetBgDataSpec<A>(num: Ops<A>, s: Store<A>, bgData: Option<A>, dataType: string): (r: Outcome<A>)
    requires HasGroups(s)
    ensures HasGroups(r.store) && r.store.attrs == s.attrs && r.store.groups.Keys == s.groups.Keys
    ensures r.err.Some? <==> bgData.Some? && GetAmpPha(num, bgData.value, dataType).Failure?
    ensures r.err.Some? ==> r.err.value == GetAmpPha(num, bgData.value, dataType).error && r.store == s
    ensures r.err.None? ==>
      r.store.groups[AmplitudeGroup]
        == SetBg(s.groups[AmplitudeGroup], if bgData.None? then None else Some(GetAmpPha(num, bgData.value, dataType).value.amp), DataKey)
      && r.store.groups[PhaseGroup]
        == SetBg(s.groups[PhaseGroup], if bgData.None? then None else Some(GetAmpPha(num, bgData.value, dataType).value.pha), DataKey)
    ensures forall g :: g in s.groups && g != AmplitudeGroup && g != PhaseGroup ==> r.store.groups[g] == s.groups[g]
  {
    var decoded: Result<(Option<A>, Option<A>), Error> :=
      if bgData.None? then Success((None, None))
      else match GetAmpPha(num, bgData.value, dataType)
        case Failure(e) => Failure(e)
        case Success(d) => Success((Some(d.amp), Some(d.pha)));
    match decoded
    case Failure(e) => Outcome(s, Some(e))
    case Success((amp, pha)) =>
      Outcome(SetGroupBg(SetGroupBg(s, AmplitudeGroup, amp, DataKey), PhaseGroup, pha, DataKey), None)
  }

  /**
   * The data step of the constructor: without `data` nothing is decoded or
   * written (not even background data); with `data`, it is decoded, its
   * amplitude and phase become the "raw" images and `set_bg_data` follows.
   * The metadata is written last, so not at all when an exception came first.
   */
  function LoadSpec<A>(num: Ops<A>, s: Store<A>, data: Option<A>, bgData: Option<A>, dataType: string,
                       pixelSize: Option<real>, wavelength: Option<real>, time: Option<real>): (r: Outcome<A>)
    requires HasGroups(s)
    ensures HasGroups(r.store) && r.store.groups.Keys == s.groups.Keys
    ensures data.None? ==> r == Outcome(WithMeta(s, pixelSize, wavelength, time), None)
    ensures r.err.None? ==> r.store.attrs == WithMeta(s, pixelSize, wavelength, time).attrs
    ensures r.err.Some? ==> r.store.attrs == s.attrs
    ensures r.err == Some(BadDataType(dataType)) <==> data.Some? && dataType !in DataTypes
    ensures data.Some? && GetAmpPha(num, data.value, dataType).Failure? ==>
      r == Outcome(s, Some(GetAmpPha(num, data.value, dataType).error))
    ensures data.Some? && GetAmpPha(num, data.value, dataType).Success? ==>
      r.store.groups[AmplitudeGroup].raw == Some(GetAmpPha(num, data.value, dataType).value.amp)
      && r.store.groups[PhaseGroup].raw == Some(GetAmpPha(num, data.value, dataType).value.pha)
  {
    if data.None? then
      Outcome(WithMeta(s, pixelSize, wavelength, time), None)
    else
      match GetAmpPha(num, data.value, dataType)
      case Failure(e) => Outcome(s, Some(e))
      case Success(d) =>
        var written := SetGroupRaw(SetGroupRaw(s, AmplitudeGroup, d.amp), PhaseGroup, d.pha);
        var bg := SetBgDataSpec(num, written, bgData, dataType);
        if bg.err.Some? then bg
        else Outcome(WithMeta(bg.store, pixelSize, wavelength, time), None)
  }

  /** The file h5py opens: an empty in-memory file when no file is named. */
  function Opened<A>(hdf5File: Option<Store<A>>): (s: Store<A>)
    ensures hdf5File.None? ==> s == EmptyStore()
    ensures hdf5File.Some? ==> s == hdf5File.value
  {
    if hdf5File.None? then EmptyStore() else hdf5File.value
  }

  /** The whole constructor: open the file, add the groups, then the data and metadata steps. */
  function InitSpec<A>(num: Ops<A>, data: Option<A>, bgData: Option<A>, dataType: string,
                       hdf5File: Option<Store<A>>,
                       pixelSize: Option<real>, wavelength: Option<real>, time: Option<real>): (r: Outcome<A>)
    ensures HasGroups(r.store)
  {
    LoadSpec(num, WithGroups(Opened(hdf5File)), data, bgData, dataType, pixelSize, wavelength, time)
  }

  /** A quantitative phase image backed by an HDF5 file. */
  class QPImage<A> {
    /** The numerical routines the decoder calls. */
    const num: Ops<A>
    /** The contents of the HDF5 file, `self.h5`. */
    var h5: Store<A>
    /** The `set_bg(None, key)` calls made on the image-data objects so far, in order. */
    ghost var trace: seq<ClearCall>

    /** Both image-data groups exist (the constructor creates them). */
    predicate Valid()
      reads this
    {
      HasGroups(h5)
    }

    /**
     * The first half of `__init__`: open the file (`hdf5File` is the content
     * of the named file, `None` for the in-memory default) and create the
     * "amplitude" and "phase" groups where they are missing.
     */
    constructor Open(num: Ops<A>, hdf5File: Option<Store<A>>)
      ensures Valid() && this.num == num
      ensures h5 == WithGroups(Opened(hdf5File))
      ensures trace == []
    {
      this.num := num;
      var file := Opened(hdf5File);
      h5 := file;
      trace := [];
      new;
      var groups := [AmplitudeGroup, PhaseGroup];
      for i := 0 to |groups|
        invariant h5 == EnsureGroups(file, groups[..i])
        invariant trace == []
      {
        EnsureGroupsPrefix(file, groups, i);
        if groups[i] !in h5.groups {
          h5 := CreateGroup(h5, groups[i]);
        }
      }
      assert groups[..|groups|] == groups;
      assert h5 == WithGroups(file);
    }

    /** `image_data.set_bg(bg, key)` on the amplitude or phase object. */
    method SetBg(field: FieldName, bg: Option<A>, key: string)
      requires Valid()
      modifies this
      ensures Valid()
      ensures h5 == SetGroupBg(old(h5), GroupOf(field), bg, key)
      ensures trace == old(trace) + (if bg.None? then [ClearCall(field, key)] else [])
    {
      h5 := SetGroupBg(h5, GroupOf(field), bg, key);
      if bg.None? {
        trace := trace + [ClearCall(field, key)];
      }
    }

    /** `image_data["raw"] = raw` on the amplitude or phase object. */
    method SetRaw(field: FieldName, raw: A)
      requires Valid()
      modifies this
      ensures Valid()
      ensures h5 == SetGroupRaw(old(h5), GroupOf(field), raw)
      ensures trace == old(trace)
    {
      h5 := SetGroupRaw(h5, GroupOf(field), raw);
    }

    /** `set_bg_data(bg_data, data_type)`. */
    method SetBgData(bgData: Option<A>, dataType: string) returns (err: Option<Error>)
      requires Valid()
      modifies this
      ensures Valid()
      ensures Outcome(h5, err) == SetBgDataSpec(num, old(h5), bgData, dataType)
      ensures trace == old(trace) + (if err.None? && bgData.None? then DataClears else [])
    {
      var amp: Option<A>, pha: Option<A>;
      if bgData.None? {
        amp, pha := None, None;
      } else {
        var decoded := GetAmpPha(num, bgData.value, dataType);
        if decoded.Failure? {
          return Some(decoded.error);
        }
        amp, pha := Some(decoded.value.amp), Some(decoded.value.pha);
      }
      SetBg(Amplitude, amp, DataKey);
      SetBg(Phase, pha, DataKey);
      err := None;
    }

    /**
     * The second half of `__init__`: decode and write the data and its
     * background, then the metadata.
     */
    method Load(data: Option<A>, bgData: Option<A>, dataType: string,
                pixelSize: Option<real>, wavelength: Option<real>, time: Option<real>)
      returns (err: Option<Error>)
      requires Valid()
      modifies this
      ensures Valid()
      ensures Outcome(h5, err) == LoadSpec(num, old(h5), data, bgData, dataType, pixelSize, wavelength, time)
      ensures trace == old(trace) + (if err.None? && data.Some? && bgData.None? then DataClears else [])
    {
      if data.Some? {
        var decoded := GetAmpPha(num, data.value, dataType);
        if decoded.Failure? {
          return Some(decoded.error);
        }
        SetRaw(Amplitude, decoded.value.amp);
        SetRaw(Phase, decoded.value.pha);
        ghost var written := h5;
        assert written == SetGroupRaw(SetGroupRaw(old(h5), AmplitudeGroup, decoded.value.amp), PhaseGroup, decoded.value.pha);
        err := SetBgData(bgData, dataType);
        if err.Some? {
          assert Outcome(h5, err) == SetBgDataSpec(num, written, bgData, dataType);
          return;
        }
      }
      WriteMeta(pixelSize, wavelength, time);
      err := None;
    }

    /** The metadata step of `__init__`: `if value: h5.attrs[name] = value` for each attribute. */
    method WriteMeta(pixelSize: Option<real>, wavelength: Option<real>, time: Option<real>)
      requires Valid()
      modifies this
      ensures Valid()
      ensures h5 == WithMeta(old(h5), pixelSize, wavelength, time)
      ensures trace == old(trace)
    {
      if Truthy(pixelSize) {
        h5 := h5.(attrs := h5.attrs[PixelSizeAttr := pixelSize.value]);
      }
      if Truthy(time) {
        h5 := h5.(attrs := h5.attrs[TimeAttr := time.value]);
      }
      if Truthy(wavelength) {
        h5 := h5.(attrs := h5.attrs[WavelengthAttr := wavelength.value]);
      }
    }

    /**
     * `clear_bg(data_names, keys)`: validate, then call `set_bg(None, key)`
     * for each selected object (amplitude first) and each key in order.
     * On failure nothing has been cleared.
     */
    method ClearBg(dataNames: seq<string> := [AmplitudeGroup, PhaseGroup], keys: seq<string> := ["ramp"])
      returns (err: Option<Error>)
      requires Valid()
      modifies this
      ensures Valid()
      ensures ClearSelection(dataNames, keys).Failure? ==>
        err == Some(ClearSelection(dataNames, keys).error) && h5 == old(h5)
      ensures ClearSelection(dataNames, keys).Success? ==>
        var fields := ClearSelection(dataNames, keys).value;
        && err.None?
        && trace == old(trace) + ClearCalls(fields, keys)
        && h5 == ApplyClears(old(h5), ClearCalls(fields, keys))
        && h5 == ClearedStore(old(h5), (set f | f in fields), keys)
    ensures ClearSelection(dataNames, keys).Failure? ==> trace == old(trace)
    {
      var imdats := SelectImageData(dataNames, keys);
      if imdats.Failure? {
        return Some(imdats.error);
      }
      var fields := imdats.value;
      ClearFields(fields, keys);
      ClearsClosedForm(old(h5), fields, keys);
      err := None;
    }

    /** The outer loop of `clear_bg`: the inner loop for each selected object in turn. */
    method ClearFields(fields: seq<FieldName>, keys: seq<string>)
      requires Valid()
      modifies this
      ensures Valid()
      ensures h5 == ApplyClears(old(h5), ClearCalls(fields, keys))
      ensures trace == old(trace) + ClearCalls(fields, keys)
    {
      for i := 0 to |fields|
        invariant Valid()
        invariant h5 == ApplyClears(old(h5), ClearCalls(fields[..i], keys))
        invariant trace == old(trace) + ClearCalls(fields[..i], keys)
      {
        FieldStep(old(h5), old(trace), fields, keys, i);
        ClearKeys(fields[i], keys);
      }
      assert fields[..|fields|] == fields;
    }

    /** The inner loop of `clear_bg`: `set_bg(None, key)` on one object for each key in order. */
    method ClearKeys(field: FieldName, keys: seq<string>)
      requires Valid()
      modifies this
      ensures Valid()
      ensures h5 == ApplyClears(old(h5), KeyCalls(field, keys))
      ensures trace == old(trace) + KeyCalls(field, keys)
    {
      for j := 0 to |keys|
        invariant Valid()
        invariant h5 == ApplyClears(old(h5), KeyCalls(field, keys[..j]))
        invariant trace == old(trace) + KeyCalls(field, keys[..j])
      {
        KeyStep(old(h5), old(trace), field, keys, j);
        SetBg(field, None, keys[j]);
      }
      assert keys[..|keys|] == keys;
    }

    /** `amp`: the amplitude group, from which the corrected amplitude image is computed. */
    function Amp(): (l: Layers<A>)
      reads this
      requires Valid()
      ensures l == h5.groups[AmplitudeGroup]
    {
      h5.groups[AmplitudeGroup]
    }

    /** `pha`: the phase group, from which the corrected phase image is computed. */
    function Pha(): (l: Layers<A>)
      reads this
      requires Valid()
      ensures l == h5.groups[PhaseGroup]
    {
      h5.groups[PhaseGroup]
    }

    /** `bg_amp`: the background components of the amplitude. */
    function BgAmp(): (bg: map<string, A>)
      reads this
      requires Valid()
      ensures bg == h5.groups[AmplitudeGroup].bg
    {
      h5.groups[AmplitudeGroup].bg
    }

    /** `bg_pha`: the background components of the phase. */
    function BgPha(): (bg: map<string, A>)
      reads this
      requires Valid()
      ensures bg == h5.groups[PhaseGroup].bg
    {
      h5.groups[PhaseGroup].bg
    }
  }

  /**
   * `QPImage(data, bg_data, data_type, hdf5_file, pixel_size, wavelength, time)`
   * with the source's defaults. The object returned stands for the file:
   * when `err` is set, Python's constructor raised and the caller is left
   * with the file as it is here.
   */
  method Create<A>(num: Ops<A>, data: Option<A> := None, bgData: Option<A> := None,
                   dataType: string := PhaseTag, hdf5File: Option<Store<A>> := None,
                   pixelSize: Option<real> := None, wavelength: Option<real> := None,
                   time: Option<real> := None)
    returns (qpi: QPImage<A>, err: Option<Error>)
    ensures fresh(qpi) && qpi.Valid() && qpi.num == num
    ensures Outcome(qpi.h5, err) == InitSpec(num, data, bgData, dataType, hdf5File, pixelSize, wavelength, time)
    ensures qpi.trace == (if err.None? && data.Some? && bgData.None? then DataClears else [])
  {
    qpi := new QPImage.Open(num, hdf5File);
    err := qpi.Load(data, bgData, dataType, pixelSize, wavelength, time);
  }

  /**
   * An already-unwrapped phase image (one that unwrapping leaves as it is)
   * given as "phase" data with a wavelength, in the default in-memory file:
   * the phase group holds exactly that image and no background, the
   * amplitude group an all-ones image, and the wavelength is the only
   * attribute.
   */
  lemma UnwrappedPhaseImage<A>(num: Ops<A>, phase: A, wavelength: real)
    requires num.unwrap(phase) == phase && wavelength != 0.0
    ensures var r := InitSpec(num, Some(phase), None, PhaseTag, None, None, Some(wavelength), None);
      && r.err.None?
      && r.store.groups[PhaseGroup] == Layers(Some(phase), map[])
      && r.store.groups[AmplitudeGroup] == Layers(Some(num.onesLike(phase)), map[])
      && r.store.attrs == map[WavelengthAttr := wavelength]
  {
    var s := WithGroups(Opened<A>(None));
    assert s.groups == map[AmplitudeGroup := EmptyLayers(), PhaseGroup := EmptyLayers()];
    assert s.attrs == map[];
    var d := AmpPha(num.onesLike(phase), phase);
    assert GetAmpPha(num, phase, PhaseTag) == Success(d);
    var written := SetGroupRaw(SetGroupRaw(s, AmplitudeGroup, d.amp), PhaseGroup, d.pha);
    var bg := SetBgDataSpec(num, written, None, PhaseTag);
    assert bg.err.None?;
    assert bg.store.groups[PhaseGroup].bg == map[];
    assert bg.store.groups[AmplitudeGroup].bg == map[];
    var r := LoadSpec(num, s, Some(phase), None, PhaseTag, None, Some(wavelength), None);
    assert r == Outcome(WithMeta(bg.store, None, Some(wavelength), None), None);
    assert r.store.attrs == map[WavelengthAttr := wavelength];
  }

  /**
   * Opening a file that already has both groups, with no data and no
   * truthy metadata, writes nothing: this is why such a file can be
   * reopened read-only.
   */
  lemma ReopenWritesNothing<A>(num: Ops<A>, s: Store<A>, bgData: Option<A>, dataType: string)
    requires HasGroups(s)
    ensures InitSpec(num, None, bgData, dataType, Some(s), None, None, None) == Outcome(s, None)
  {
    WithGroupsKeepsComplete(s);
  }

  /**
   * Writing a phase image to a new file and reopening the file without
   * data gives back the same amplitude and phase groups.
   */
  lemma FileRoundTrip<A>(num: Ops<A>, phase: A, dataType: string)
    requires GetAmpPha(num, phase, dataType).Success?
    ensures var written := InitSpec(num, Some(phase), None, dataType, Some(EmptyStore()), None, None, None);
      && written.err.None?
      && InitSpec(num, None, None, dataType, Some(written.store), None, None, None) == written
  {
    var written := InitSpec(num, Some(phase), None, dataType, Some(EmptyStore()), None, None, None);
    ReopenWritesNothing(num, written.store, None, dataType);
  }

  /**
   * Decoding the background can fail after the raw images were written
   * (a pair encoding with a short background): the exception leaves the
   * raw images in the file, while backgrounds and metadata are untouched.
   */
  lemma BackgroundFailureKeepsRaw<A>(num: Ops<A>, s: Store<A>, data: A, bgData: A, dataType: string,
                                     pixelSize: Option<real>, wavelength: Option<real>, time: Option<real>)
    requires HasGroups(s)
    requires GetAmpPha(num, data, dataType).Success? && GetAmpPha(num, bgData, dataType).Failure?
    ensures var r := LoadSpec(num, s, Some(data), Some(bgData), dataType, pixelSize, wavelength, time);
      var d := GetAmpPha(num, data, dataType).value;
      && r.err.Some? && r.err.value.IndexError?
      && r.store.attrs == s.attrs
      && r.store.groups[AmplitudeGroup] == s.groups[AmplitudeGroup].(raw := Some(d.amp))
      && r.store.groups[PhaseGroup] == s.groups[PhaseGroup].(raw := Some(d.pha))
  {
  }

  /**
   * When the constructor gets data and succeeds, the "data" background of
   * both fields is decided by the background argument alone: cleared when
   * it is `None`, the decoded background otherwise; other background
   * components are kept.
   */
  lemma LoadDecidesDataBackground<A>(num: Ops<A>, s: Store<A>, data: A, bgData: Option<A>, dataType: string,
                                     pixelSize: Option<real>, wavelength: Option<real>, time: Option<real>)
    requires HasGroups(s)
    requires LoadSpec(num, s, Some(data), bgData, dataType, pixelSize, wavelength, time).err.None?
    ensures var r := LoadSpec(num, s, Some(data), bgData, dataType, pixelSize, wavelength, time);
      && (bgData.None? ==> DataKey !in r.store.groups[AmplitudeGroup].bg && DataKey !in r.store.groups[PhaseGroup].bg)
      && (bgData.Some? ==>
            var b := GetAmpPha(num, bgData.value, dataType);
            && b.Success?
            && DataKey in r.store.groups[AmplitudeGroup].bg && r.store.groups[AmplitudeGroup].bg[DataKey] == b.value.amp
            && DataKey in r.store.groups[PhaseGroup].bg && r.store.groups[PhaseGroup].bg[DataKey] == b.value.pha)
      && (forall k :: k != DataKey ==>
            (k in r.store.groups[AmplitudeGroup].bg <==> k in s.groups[AmplitudeGroup].bg)
            && (k in r.store.groups[AmplitudeGroup].bg ==>
                  r.store.groups[AmplitudeGroup].bg[k] == s.groups[AmplitudeGroup].bg[k])
            && (k in r.store.groups[PhaseGroup].bg <==> k in s.groups[PhaseGroup].bg)
            && (k in r.store.groups[PhaseGroup].bg ==>
                  r.store.groups[PhaseGroup].bg[k] == s.groups[PhaseGroup].bg[k]))
  {
  }

  /**
   * `set_bg_data` writes nothing but the "data" component: raw images and
   * the other components of both fields, other groups and the attributes
   * are as before.
   */
  lemma SetBgDataTouchesOnlyData<A>(num: Ops<A>, s: Store<A>, bgData: Option<A>, dataType: string)
    requires HasGroups(s)
    ensures var r := SetBgDataSpec(num, s, bgData, dataType).store;
      && r.attrs == s.attrs
      && (forall g :: g in s.groups ==> r.groups[g].raw == s.groups[g].raw)
      && (forall g, k :: g in s.groups && k != DataKey ==>
            (k in r.groups[g].bg <==> k in s.groups[g].bg)
            && (k in r.groups[g].bg ==> r.groups[g].bg[k] == s.groups[g].bg[k]))
  {
  }

  /** A "fit" key is rejected by `clear_bg`, before anything is cleared. */
  lemma FitKeyRejected(dataNames: seq<string>)
    requires AllIn(dataNames, DataNames)
    ensures ClearSelection(dataNames, ["fit"]) == Failure(BadBgKey("fit"))
  {
  }
}
