# QPImage container — a Dafny model

This project models the bookkeeping of `QPImage`, the quantitative phase
image container of the `qpimage` package (`qpimage/qpimage.py`). A QPImage
keeps its data in an HDF5 file that holds two groups, "amplitude" and "phase".
Each group has a "raw" image and background components ("ramp", "data", ...).
The file also carries scalar attributes (pixel size, time, wavelength). The
model covers:

- **decoding** (`_get_amp_pha`): the four input encodings `field`, `phase`,
  `phase,amplitude` and `phase,intensity`, and which array each of them turns
  into the amplitude and the phase;
- **construction** (`__init__`): the groups are created only where missing.
  The raw images are written only when data is given, and background data
  handling follows them. Each metadata attribute is set only when its value
  is truthy;
- **background data** (`set_bg_data`): the "data" component of both fields
  is cleared or set;
- **background clearing** (`clear_bg`): names and keys are validated, then
  `set_bg(None, key)` runs for every selected field and key, in order;
- **accessors** `amp`, `pha`, `bg_amp`, `bg_pha`, as reads of the groups.

The numerical routines are not modelled. These are phase unwrapping,
`abs`, `angle`, `sqrt`, `ones_like` and the indexing `data[i]`. They are the
fields of `Decoding.Ops<A>` over an abstract array type `A`, so every result
holds whatever they compute. Indexing returns `None` where Python raises
IndexError.

The HDF5 file is the value `H5Store.Store<A>`. The class `Image.QPImage<A>`
holds it in the field `h5`, and its methods reassign that field. Every
method is proved against a pure function on `Store`: `SetBgDataSpec`,
`LoadSpec`, `ApplyClears` / `ClearedStore`, `WithGroups`. The lemmas are
stated about those functions. The ghost field `trace` records the
`set_bg(None, key)` calls made on the two image-data objects, in order, so
that the order and number of the clearing calls are part of each method's
contract and not only their effect on the file.

`qpimage/image_data.py` (the `Amplitude` and `Phase` classes) is not part of
this model. Its two operations used here are modelled by their effect on the
group. `set_bg(None, key)` removes component `key`, and `set_bg(v, key)`
stores `v` under `key` (`H5Store.SetBg`). `obj["raw"] = v` sets the raw
image (`H5Store.SetGroupRaw`).

Python's constructor either returns an object or raises. Here it is split
in two: the constructor `QPImage.Open` (lines 40-55) and the method
`QPImage.Load` (lines 57-73). In the model `Open` cannot fail, because the
errors h5py itself raises are left out (see below). `Image.Create` runs both. It
returns the object together with the exception, if any. When the exception
is set, the object stands for the file the failed constructor left behind.

Modules: `Wrappers` (Option, Result), `Errors` (the exceptions), `Decoding`,
`H5Store`, `Clearing` (the pure part of `clear_bg`), `Image` (the class).

Three behaviours of the code to note:

- `clear_bg` accepts only the keys "ramp" and "data", and rejects "fit".
- Every validation failure is an AssertionError. There are no distinct
  error types for an encoding, a key or an argument.
- An empty key list is accepted.

## Model

| member | source | states |
|---|---|---|
| Decoding.GetAmpPha | qpimage/qpimage.py:96-128 | fails with the assertion exactly for a tag outside the four encodings; a pair encoding fails with IndexError only when element 0 or 1 is missing; `field` gives abs and unwrap(angle); `phase` gives ones-like and unwrap(data); pair encodings give unwrap(data[0]) as phase and data[1] or sqrt(data[1]) as amplitude |
| Decoding.AmplitudeNeverUnwrapped | qpimage/qpimage.py:116-127 | replacing the unwrapping routine changes neither success nor the decoded amplitude |
| Decoding.PhaseAlwaysUnwrapped | qpimage/qpimage.py:116-127 | the decoded phase is the unwrapping of some array w, and with another unwrapping routine f it is f(w) |
| Decoding.UnwrappedPhaseDecodesToItself | qpimage/qpimage.py:119-121 | an already-unwrapped phase image decodes under `phase` to itself with a ones amplitude |
| H5Store.EmptyStore | qpimage/qpimage.py:40-44 | the default in-memory file (core driver, not backed by disk) is taken to start with no groups and no attributes |
| H5Store.CreateGroup | qpimage/qpimage.py:52 | adds one empty group under a new name and keeps everything else |
| H5Store.EnsureGroup | qpimage/qpimage.py:51-52 | a group is added empty only when missing; existing groups and attributes are kept |
| H5Store.WithGroups | qpimage/qpimage.py:50-52 | after group creation both groups exist, existing groups are unchanged, the new ones are empty, and the attributes are kept |
| H5Store.WithGroupsKeepsComplete | qpimage/qpimage.py:50-52 | on a file that has both groups, group creation changes nothing |
| H5Store.WithGroupsIdempotent | qpimage/qpimage.py:50-52 | group creation is idempotent |
| H5Store.SetBg | qpimage/qpimage.py:234-235 | `None` removes component `key`, a value becomes component `key`, and the raw image and other components are kept |
| H5Store.SetGroupBg | qpimage/qpimage.py:182 | `set_bg` changes only the named group |
| H5Store.SetGroupRaw | qpimage/qpimage.py:61-62 | writing "raw" changes only that group's raw image |
| Clearing.GroupOf | qpimage/qpimage.py:174-177 | each image-data object wraps its own group, so amplitude and phase map to distinct groups |
| Clearing.FirstOutside | qpimage/qpimage.py:168-171 | finds the first element outside the allowed list, and finds none exactly when all are allowed |
| Clearing.Selected | qpimage/qpimage.py:173-177 | selects a field exactly when its name is listed, at most once each, amplitude before phase |
| Clearing.ClearSelection | qpimage/qpimage.py:168-178 | succeeds exactly when all names and all keys are valid and some name is given; otherwise fails on a bad name if there is one, else on a bad key, else on the empty selection |
| Clearing.ClearSelectionReportsFirst | qpimage/qpimage.py:168-171 | the rejected name or key is the first bad one in its list: every element before it passed the assertion |
| Clearing.SelectImageData | qpimage/qpimage.py:168-178 | the validation loops and the `imdats` list compute `ClearSelection` |
| Clearing.KeyCalls | qpimage/qpimage.py:181-182 | one `set_bg(None, key)` per key, in the given order |
| Clearing.ClearCalls | qpimage/qpimage.py:180-182 | the calls of the nested loop: for each selected field, all its keys |
| Clearing.ApplyClears | qpimage/qpimage.py:180-182 | performing the clearing calls keeps the set of groups and the attributes |
| Clearing.ClearLayers | qpimage/qpimage.py:182 | removes exactly the listed components and keeps the raw image and the other components |
| Clearing.ClearedStore | qpimage/qpimage.py:180-182 | selected groups lose the listed components, and every other group and the attributes are unchanged |
| Clearing.KeyCallsEffect | qpimage/qpimage.py:181-182 | the calls for one field remove exactly the listed keys from its group |
| Clearing.ClearsClosedForm | qpimage/qpimage.py:180-182 | the ordered calls of `clear_bg` leave the file equal to `ClearedStore` |
| Clearing.ClearCallsAt | qpimage/qpimage.py:180-182 | call number i * (number of keys) + j is (field i, key j), so fields come in selection order and keys in the given order |
| Image.SetAttrIfTruthy | qpimage/qpimage.py:68-73 | the attribute is set to the value exactly when it is truthy, and every other attribute is kept |
| Image.WithMeta | qpimage/qpimage.py:67-73 | each of pixel_size, time and wavelength is written when truthy and otherwise leaves its own attribute as it was; other attributes and the groups are kept, and with no truthy value the file is unchanged |
| Image.SetBgDataSpec | qpimage/qpimage.py:212-235 | fails only when a given background does not decode, and then writes nothing; otherwise the "data" component of both fields is cleared for `None` or set to the decoded amplitude and phase |
| Image.LoadSpec | qpimage/qpimage.py:57-73 | without data only metadata is written and the background is ignored; a bad tag fails exactly when data is given; a failed decode writes nothing; a successful one writes both raw images; metadata is written only when no exception came first |
| Image.Opened | qpimage/qpimage.py:40-48 | no file name gives the in-memory file, taken to be empty, and a name gives that file's contents |
| Image.InitSpec | qpimage/qpimage.py:9-73 | the file after the whole constructor always has both groups |
| Image.QPImage.Open | qpimage/qpimage.py:40-55 | the file is opened and the missing groups are added (`WithGroups`); no `set_bg` call has been made |
| Image.QPImage.SetBg | qpimage/qpimage.py:182 | `set_bg` on the amplitude or phase object updates only its group, and a clearing call is recorded in `trace` |
| Image.QPImage.SetRaw | qpimage/qpimage.py:61-62 | `obj["raw"] = v` updates only that group's raw image |
| Image.QPImage.SetBgData | qpimage/qpimage.py:212-235 | the new file and the exception are those of `SetBgDataSpec`; a `None` background clears "data" of the amplitude, then of the phase |
| Image.QPImage.Load | qpimage/qpimage.py:57-73 | the new file and the exception are those of `LoadSpec`; the only clearing calls are those of a successful `set_bg_data(None)` |
| Image.QPImage.WriteMeta | qpimage/qpimage.py:67-73 | the three conditional attribute writes compute `WithMeta` |
| Image.QPImage.ClearBg | qpimage/qpimage.py:155-182 | on a failed selection: that error, with the file and `trace` unchanged; otherwise exactly the calls `ClearCalls` (each selected object once, amplitude first, keys in the given order) are made, and the file is `ClearedStore` |
| Image.QPImage.ClearFields | qpimage/qpimage.py:180-182 | the outer loop makes the calls `ClearCalls` in order and leaves the file they produce |
| Image.QPImage.ClearKeys | qpimage/qpimage.py:181-182 | the inner loop makes the calls `KeyCalls` in order and leaves the file they produce |
| Image.QPImage.Amp | qpimage/qpimage.py:140-143 | reads the amplitude group |
| Image.QPImage.Pha | qpimage/qpimage.py:150-153 | reads the phase group |
| Image.QPImage.BgAmp | qpimage/qpimage.py:130-133 | reads the amplitude background components |
| Image.QPImage.BgPha | qpimage/qpimage.py:135-138 | reads the phase background components |
| Image.Create | qpimage/qpimage.py:9-73 | the constructor with the source's defaults; the file and the exception are those of `InitSpec`, and the only clearing calls are those of `set_bg_data(None)` |
| Image.UnwrappedPhaseImage | tests/test_minimal.py:13-18 | an unwrapped phase ramp with a wavelength gives a phase group that is exactly the input with no background, a ones amplitude, and only the wavelength attribute |
| Image.ReopenWritesNothing | qpimage/qpimage.py:50-73 | reopening a complete file without data or truthy metadata writes nothing |
| Image.FileRoundTrip | tests/test_minimal.py:21-37 | a file written from decodable data and reopened without data has the same amplitude and phase groups |
| Image.BackgroundFailureKeepsRaw | qpimage/qpimage.py:57-66 | a background that fails to decode raises IndexError after the raw images were written; backgrounds and metadata stay untouched |
| Image.LoadDecidesDataBackground | qpimage/qpimage.py:57-66 | after a successful load with data, the "data" component is absent for a `None` background and holds the decoded background otherwise; other components are kept |
| Image.SetBgDataTouchesOnlyData | qpimage/qpimage.py:227-235 | `set_bg_data` keeps raw images, attributes and every component other than "data" |
| Image.FitKeyRejected | qpimage/qpimage.py:170-171 | the key "fit" is rejected by the key assertion |

## Left out

- Opening, flushing and closing the HDF5 file are not modelled: `h5py.File`, the `core` driver, `hdf5_mode`, and `__enter__`/`__exit__` (lines 40-48 and 75-80). The opened file enters as its contents. Read-only mode, in which h5py refuses writes, is not modelled; `Image.ReopenWritesNothing` shows that reopening without data performs no writes.
- Errors raised by h5py itself are not modelled: `h5py.File` failing on a missing or unreadable file or a bad `hdf5_mode`, and `create_group` (line 52) failing on a read-only file that lacks a group. `QPImage.Open` therefore cannot fail in the model.
- H5Store.EmptyStore: the default file is opened with the core driver under the fixed name "none.h5" in mode "a" (lines 41-44). The model takes it to start empty; whether h5py would load an existing file of that name into memory is not modelled.
- Image.Opened: takes the default in-memory file to be empty, for the same reason.
- Phase unwrapping and numpy's `abs`, `angle`, `sqrt` and `ones_like` are foreign floating-point routines. They stay uninterpreted.
- The `field` property (`amp * exp(1j * pha)`) is complex floating-point arithmetic and is not modelled.
- `qpimage/image_data.py` is not part of this model. It holds how `Amplitude` and `Phase` combine background components into `.bg` and `.image`, and any key or shape checks of their own in `set_bg`.
- Image.QPImage.Amp: returns the amplitude group that the corrected image is computed from, not the image, because that computation is in `qpimage/image_data.py`.
- Image.QPImage.Pha: returns the phase group, not the corrected image, for the same reason.
- Image.QPImage.BgAmp: returns the background components, not their combination, for the same reason.
- Image.QPImage.BgPha: returns the background components, not their combination, for the same reason.
- `__repr__` (float formatting of the wavelength) is not modelled.
- `correct_amp`, `correct_pha` and `refocus` are empty stubs and are not modelled.
- Running Python with `-O` removes the `assert` statements. The model keeps them as raising.
- `clear_bg` with a bare string for `data_names` or `keys` iterates over its characters. The model takes lists of strings.
- Attribute values are reals. NaN, which Python finds truthy, is not modelled.
- `tests/test_copy.py` uses an interface this code does not have (`copy()`, `meta`, the `fit` key), so it is not modelled.
- `setup.py` is packaging.
