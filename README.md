# External data tracker — a verified model

This project models the bookkeeping of the Blender addon *External data
tracker*. The addon lists every image, text block and cache file of the
open project file (`bpy.data`). It shows whether each one is packed into the
project file or missing from disk. It can also move the files of the
selected entries into a new directory.

The model has four modules:

- `Wrappers` (`wrappers.dfy`): `Option`, `Result` and `Outcome`.
  - A KeyError from a lookup in `bpy.data.<collection>[name]` becomes an `Error` value.
  - So does the exception `link` raises for a data-block it cannot track.
- `Paths` (`paths.dfy`): `os.path.basename` and `os.path.join` with POSIX semantics, as pure string functions.
- `Host` (`host.dfy`): the host's three global collections.
  - `BlendData` holds them as sequences of `ID` data-blocks: class, name, path and packing flags.
  - The class `Blender` holds the current `bpy.data`. Writing a path replaces it.
  - `IndexOf` is a lookup by name.
- `ExternalDataTracker` (`external_data_tracker.dfy`):
  - the `ExternalData` record: a tag plus one name field per kind, with `link`, `data_block`, `get_name`, `get_filepath`, `set_directory_path`, `is_packed`, `exist_on_disk` and `get_type`;
  - the icon decisions of `ExternalDataList.draw_item`;
  - the three list operations, as imperative methods over `AddonProperties.externalDataList`;
  - the dialog operator `DisplayExternalDataListOperator`: `invoke`, `check` and `execute`.

The state-changing operations are methods proved against pure functions:

- Rebuilding the list gives one freshly linked record per data-block: images first, then texts, then cache files (`ExpectedRefs`).
- `set_directory_path` leaves the host `Redirect(data, ref, dir)`.
- Redirecting the selected records leaves the host `RedirectPrefix(data, list, n, dir)`. Here `n` is where the first selected record with a missing data-block raises (`FirstUnresolved`). Rewrites made before that point stay.

The lemmas then prove:

- what these functions mean, path by path;
- that redirecting into the same directory twice, one record or a whole selection, leaves the host as doing it once;
- that they never rename anything;
- that a rebuilt list on a valid host (unique names per collection) moves exactly the data-blocks whose records are selected.

Notes on the code's behaviour:

- `check` returns True (external_data_tracker.py:203). A KeyError raised inside `change_dir_path_external_data_list` (called at :202) propagates out of it, so `Check` returns that error.
- `link` writes only the name field of its own kind and never clears the other two.
- Within this file, the only exception a path rewrite raises is the KeyError of the lookup.

## Model

| member | source | states |
|---|---|---|
| Paths.LastSlash | external_data_tracker.py:49 | the position of the last `/` of a path (or -1): it holds a `/`, and no `/` follows it |
| Paths.Basename | external_data_tracker.py:49 | `os.path.basename`: the result holds no `/`, is a suffix of the path, and is preceded by `/` when shorter than the path |
| Paths.Join | external_data_tracker.py:49 | `os.path.join` of two parts, case by case: an absolute second part replaces the first; after an empty first part or one ending in `/` the two are concatenated; otherwise they are separated by one `/`. The result ends with the second part, after a `/` when longer |
| Paths.BasenameOfJoin | external_data_tracker.py:49 | joining a directory and a file name that holds no `/`, then taking the basename, gives the file name back |
| Host.IndexOf | external_data_tracker.py:20-26 | `bpy.data.<collection>[name]` finds the first data-block with that name, and finds none exactly when no data-block has it |
| Host.IndexOfOwnName | external_data_tracker.py:20-26 | with unique names, looking a data-block up by its own name finds its own position |
| ExternalDataTracker.BlockTypeOf | external_data_tracker.py:28-40 | `link`'s class dispatch: Image → IMAGE, Text → TEXT, CacheFile → CACHE (each if and only if), any other class → the wrong-type exception |
| ExternalDataTracker.Collection | external_data_tracker.py:21-26 | the `bpy.data` collection a tag selects; when the host's collections hold their own classes, every data-block in it gets that tag from `link` |
| ExternalDataTracker.Resolve | external_data_tracker.py:20-26 | `data_block()`'s lookup in the collection of the record's tag: a found data-block has the stored name; a KeyError with that name exactly when none has it |
| ExternalDataTracker.LinkThenResolve | external_data_tracker.py:20-40 | in a valid host every data-block can be linked, and looking up the tag and name `link` stores finds that same data-block |
| ExternalDataTracker.ResolveSameNames | external_data_tracker.py:20-26 | lookups depend only on names, so hosts that differ only in paths resolve every record alike |
| ExternalDataTracker.Relocate | external_data_tracker.py:49 | the new path `os.path.join(dir, os.path.basename(path))` starts with the target directory |
| ExternalDataTracker.RelocateKeepsBasename | external_data_tracker.py:48-49 | the new path keeps the old file name |
| ExternalDataTracker.RelocateIdempotent | external_data_tracker.py:48-49 | computing the new path twice with the same directory gives the same path as once |
| ExternalDataTracker.RelocateCases | external_data_tracker.py:49 | the new path is the bare file name for an empty directory (the default of `new_directory`, :163), `dir` + file name for a directory ending in `/`, and `dir/` + file name otherwise |
| ExternalDataTracker.RelocateInto | external_data_tracker.py:48-49 | a file `prefix/name` moved into a non-empty directory `dir` not ending in `/` is `dir/name`, e.g. `/a/x.png` into `/out` is `/out/x.png` |
| ExternalDataTracker.Redirect | external_data_tracker.py:48-49 | the host after `set_directory_path`: untouched when the lookup raises, and always the same number of data-blocks in each collection |
| ExternalDataTracker.RedirectAt | external_data_tracker.py:48-49 | after `set_directory_path`, only the data-block the record resolves to has a new path (its file name in `dir`); every other data-block and every name and flag is unchanged |
| ExternalDataTracker.RedirectSameNames | external_data_tracker.py:48-49 | `set_directory_path` never renames, adds, removes or reorders data-blocks |
| ExternalDataTracker.RedirectIdempotent | external_data_tracker.py:48-49 | calling `set_directory_path` twice with the same directory leaves the host as calling it once |
| ExternalDataTracker.ExternalData.GetType | external_data_tracker.py:62-63 | `get_type()`: the tag whose collection `data_block()` takes its data-block from, on every host |
| ExternalDataTracker.ExternalData.DataBlock | external_data_tracker.py:20-26 | `data_block()` returns the data-block at the position the lookup finds, or the lookup's KeyError |
| ExternalDataTracker.ExternalData.Link | external_data_tracker.py:28-40 | `link` fails exactly for an untrackable class, with that class in the error; otherwise it sets the tag and the own-kind name field to the data-block's name and leaves `selected` and the other two name fields as they were |
| ExternalDataTracker.ExternalData.GetName | external_data_tracker.py:42-43 | `get_name()` succeeds exactly when the data-block is found, and then returns the stored name; otherwise it raises KeyError with that name |
| ExternalDataTracker.ExternalData.GetFilepath | external_data_tracker.py:45-46 | `get_filepath()` succeeds exactly when the data-block is found, and then returns its path; otherwise it raises KeyError with the stored name |
| ExternalDataTracker.ExternalData.SetDirectoryPath | external_data_tracker.py:48-49 | passes exactly when the data-block is found, raises KeyError otherwise, and leaves the host `Redirect(old host, ref, dir)` |
| ExternalDataTracker.ExternalData.IsPacked | external_data_tracker.py:51-57 | CACHE is never packed; IMAGE is packed iff its data-block has a packed file, TEXT iff it is in memory; IMAGE and TEXT raise KeyError exactly when the data-block is missing |
| ExternalDataTracker.ExternalData.ExistOnDisk | external_data_tracker.py:59-60 | succeeds exactly when the data-block is found, with the file system's answer for its path; otherwise it raises KeyError with the stored name |
| ExternalDataTracker.NewRecord | external_data_tracker.py:11-18 | the record `add()` creates: unselected, tag IMAGE, all three name fields empty |
| ExternalDataTracker.LinkNewRecord | external_data_tracker.py:11-40 | linking a default record to a trackable data-block gives an unselected record with the tag, the own-kind name, and empty other name fields |
| ExternalDataTracker.IsPackedOfLinked | external_data_tracker.py:51-57 | a record linked to a data-block of a valid host resolves to it, and `is_packed()` is that data-block's packing flag for its class |
| ExternalDataTracker.DrawItem | external_data_tracker.py:75-120 | the row is drawn exactly when the data-block is found (otherwise the KeyError). It shows: the kind icon per tag; for images the preview of the record's own data-block, otherwise a blank; the stored name and the path; the package icon iff `is_packed()`; the error icon iff not on disk and not packed |
| ExternalDataTracker.ErrorIconIffMissing | external_data_tracker.py:116-120 | for a record linked to a data-block of a valid host, the error icon shows exactly when that data-block is neither on disk nor packed |
| ExternalDataTracker.AddonProperties.constructor | external_data_tracker.py:66-69 | the addon's list starts empty |
| ExternalDataTracker.SlotAtOffset | external_data_tracker.py:123-136 | counting images, then texts, then cache files numbers every data-block once |
| ExternalDataTracker.ExpectedRefsAt | external_data_tracker.py:123-136 | entry `j` of the rebuilt list's targets names the `j`-th data-block, counting images, then texts, then cache files |
| ExternalDataTracker.ExpectedRefsResolve | external_data_tracker.py:123-136 | in a valid host, entry `j` of the rebuilt list resolves back to the `j`-th data-block |
| ExternalDataTracker.AddLinkedRecords | external_data_tracker.py:128-136 | one loop of the rebuild keeps the list so far and appends one freshly linked record per data-block of the collection, in order |
| ExternalDataTracker.UpdateExternalDataList | external_data_tracker.py:123-136 | the list is cleared and rebuilt with one record per image, text and cache file, in that order. Each record is unselected and linked to its data-block, with the other name fields empty |
| ExternalDataTracker.ToggleSelectionExternalDataList | external_data_tracker.py:139-143 | every record ends with `selected == select`; length, order, tags and names are unchanged; the host is not touched |
| ExternalDataTracker.FirstUnresolved | external_data_tracker.py:146-151 | the first selected record whose data-block is missing (or the list's end); every selected record before it resolves |
| ExternalDataTracker.RedirectPrefix | external_data_tracker.py:146-151 | the host after the loop redirected the selected records among the first `n`, in list order; each collection keeps its number of data-blocks |
| ExternalDataTracker.RedirectPrefixNoneSelected | external_data_tracker.py:146-151 | with no selected record among the first `n`, the loop leaves the host untouched |
| ExternalDataTracker.TargetedSameNames | external_data_tracker.py:146-151 | which data-blocks the selected records target depends only on names, not on paths |
| ExternalDataTracker.RedirectPrefixIdempotentAt | external_data_tracker.py:146-151 | redirecting the same selection into the same directory a second time leaves each data-block as after the first |
| ExternalDataTracker.RedirectPrefixIdempotent | external_data_tracker.py:146-151 | redirecting the same selection into the same directory twice leaves the whole host as doing it once |
| ExternalDataTracker.RedirectPrefixNames | external_data_tracker.py:146-151 | redirecting any number of records never renames, adds, removes or reorders data-blocks |
| ExternalDataTracker.TargetedStep | external_data_tracker.py:146-151 | a data-block is targeted by the first `n` records exactly when it is targeted by the first `n - 1` or by record `n - 1` |
| ExternalDataTracker.RedirectPrefixAt | external_data_tracker.py:146-151 | after redirecting the selected records among the first `n`, a data-block's file name is in `dir` exactly when some selected record among them resolves to it (once, however many do); all other paths, and all names and flags, are unchanged |
| ExternalDataTracker.ChangeDirPathExternalDataList | external_data_tracker.py:146-151 | passes exactly when no selected record's data-block is missing. Otherwise it raises the KeyError of the first missing one. The host is left as redirecting, in list order, every selected record up to that point |
| ExternalDataTracker.RebuiltRecordAt | external_data_tracker.py:123-136 | record `j` of a list rebuilt from a valid host resolves to the `j`-th data-block |
| ExternalDataTracker.RebuiltListTargetAt | external_data_tracker.py:123-151 | on a rebuilt list of a valid host, a data-block is targeted by a selected record exactly when its own record is selected |
| ExternalDataTracker.RebuiltListTargets | external_data_tracker.py:123-151 | on a rebuilt list of a valid host, redirecting raises nothing and targets exactly the data-blocks whose own record is selected |
| ExternalDataTracker.ChangeDirOnRebuiltList | external_data_tracker.py:123-151 | on a rebuilt list of a valid host, changing directory raises nothing. Every data-block whose record is selected gets its file name moved into `dir`; every other one keeps its path |
| ExternalDataTracker.DisplayExternalDataListOperator.constructor | external_data_tracker.py:160-166 | select-all and change-directory start false, the new directory empty |
| ExternalDataTracker.DisplayExternalDataListOperator.Execute | external_data_tracker.py:168-169 | `execute` returns FINISHED |
| ExternalDataTracker.DisplayExternalDataListOperator.Invoke | external_data_tracker.py:171-175 | `invoke` snapshots `toggle_select_all` into `toggle_select_all_prec`, rebuilds the list as the rebuild promises, leaves the other properties alone, and opens the dialog |
| ExternalDataTracker.DisplayExternalDataListOperator.Check | external_data_tracker.py:195-203 | afterwards `prec == toggle_select_all` and `change_directory` is false. Selection is rewritten only when the toggle differed from the snapshot. The directory change runs only when its flag was set, and acts on the list as already toggled. The result is true, or the KeyError of the first missing selected data-block |

## Left out

- `__init__.py` (registration, `bl_info`, attaching the property slot to the window manager): host plumbing with no logic.
- UI layout: the operator's `draw`, the panel, and the `row`/`split`/`label`/`prop` calls and widths of `draw_item`. Only the icon and text decisions of a row are modelled; the selection check box is left out.
- `draw_item` for layouts other than DEFAULT and COMPACT draws nothing and is not modelled.
- `external_data_list_active_index`: UI highlighting only; no logic reads it.
- `os.path.exists` is the parameter `onDisk`: the file system is not modelled.
- Python's `type()` dispatch on `bpy.types` classes is the enumeration `IDType`, with a catch-all for any other class.
- `data_block_type` is a free string property in the source. Only its default and `link` ever write it, so the model has exactly three tags. The EXTERNAL_DATA icon branch of `draw_item` and the implicit `None` that `data_block()` returns for an unknown tag cannot be reached, and are not modelled.
- Writing `filepath` (external_data_tracker.py:49) is modelled as a write of the string; anything the host does on that write (reloading an image or cache file, for example) is not modelled.
- Windows path semantics of `os.path`: POSIX only.
- Blender's renaming rules: unique names per collection are an assumption (`BlendData.Valid`) of the lemmas that need it. The operations themselves look up the first data-block with a name, as the host does.
- ExternalDataTracker.ExternalData.Link: records are values in the list, so `link` returns the updated record and the list entry is replaced. A failing `link` returns the error; the caller keeps its record unchanged.
- ExternalDataTracker.ExternalData.SetDirectoryPath: data-blocks are values in the host's collections, so the in-place write of `filepath` replaces that data-block in its collection. Blender lists each data-block once, so there is no aliasing to model.
- ExternalDataTracker.UpdateExternalDataList: requires every collection to hold only its own class, as the host guarantees. The wrong-type exception `link` would raise in the middle of a rebuild is not modelled.
- ExternalDataTracker.DisplayExternalDataListOperator.Check: requires `invoke` to have run first. `toggle_select_all_prec` is created only by `invoke`, and the AttributeError otherwise is not modelled.
- ExternalDataTracker.DisplayExternalDataListOperator.Invoke: `invoke_props_dialog` is modelled by its RUNNING_MODAL result; the dialog itself is host UI.
