# SWAXSanalysis core, modelled in Dafny

SWAXSanalysis turns the EDF images of a small- and wide-angle X-ray scattering
instrument into NeXus HDF5 files, in the NXcanSAS or NXsas application definition.
It then reduces those files with the scattering-geometry library `SMI_beamline` and
writes each reduction back into the file as a new data group. This project models the
deterministic logic around that library and proves properties of it:

- **The HDF5 file** (`h5.dfy`, module `H5`) is a map from paths to groups and datasets
  with attributes. It is held in a class `File` whose methods create, copy, delete and
  annotate nodes, the way h5py does.
- **The container layout** (`h5procs.dfy`, module `Containers`) covers these procedures
  of saxs_nxformat/utils.py, saxs_nxformat/class_nexus_file.py and
  edf2nxsas/data_treatment.py:
  - replacing a dataset while keeping its attributes;
  - saving a result group as a copy of `/ENTRY/DATA`, with its rank-dependent schema;
  - deleting result groups;
  - writing a `PROCESS_*` provenance group.

  Each procedure is a method on a `File`, proved equal to a function that computes the
  steps it performs. A run that raises half-way keeps the steps done before the error.
- **The `NexusFile` classes** cover the current one (`nexusfile.dfy`, module `Nexus`) and
  the older one (`legacy.dfy`, module `LegacyNexus`). They model:
  - parameter extraction, detector-name matching and unit scaling;
  - the ranges each `process_*` method hands to the library when an argument is `None`;
  - writing each result back into the file.

  The library is a log of the calls made to it, with its `qp`/`qz` axes and its output
  arrays taken as given.
- **Parsing and conversion** cover the three `string_2_value` converters (`parsing.dfy`)
  and the three `convert` functions (`units.dfy`). The regular expressions become
  character predicates, and `float()`/`int()` are defined on the strings that reach
  them.
- **Converters and writers** model:
  - `fill_hdf5`, `data_treatment` and `generate_nexus` of saxs_nxformat/nxfile_generator.py
    (`generator.dfy`), with its older edition in edf2nxsas/nexus_file_generator.py
    (`oldergen.dfy`);
  - the NXsas writer `generate_nxsas_file` of nexus_generation.py (`nxsas.dfy`);
  - the coordinate grids they store (`grids.dfy`).
- **Names and places** (`layout.dfy`) cover `search_setting_edf`, the three
  `tree_structure_manager`s and the settings-file templates.
- **The windows' logic** covers:
  - `autofill` and the required-field completion check (`forms.dfy`);
  - the reload of a NeXus file into the parameter window (`reload.dfy`);
  - the "Save settings" button of package/gui_edf2h5.py (`settingssave.dfy`);
  - the `fill_config` save of saxs_nxformat/create_config.py (`config.dfy`).
- **Small helpers** cover `get_group_names` (`groups.dfy`) and `detect_variation` and
  `mobile_mean` (`numerics.dfy`).

Where the code, a design note and a test disagree, the model follows the code:

- `string_2_value` of saxs_nxformat/utils.py requires a signed exponent. So `"1e4"` and
  `"1.56e4"` come back as strings, although saxs_nxformat/tests/test_utils.py:66-67 and
  79-80 expect floats (`Parsing.ExponentsWithoutSignStayStrings`).
- The exponent shape of that `string_2_value` allows at most one digit before the
  separator. So `"26.397e-3"` comes back as a string, although
  saxs_nxformat/tests/test_utils.py:68 and 81 expect `0.026397`
  (`Parsing.SignedExponentLongMantissa`).
- The default `r_max` of the radial and azimuthal averages is
  `sqrt(max(qp)**2 + max(qz)**2)`, not the largest magnitude (`Nexus.AveragingDefaults`).
- `process_vertical_integration` of saxs_nxformat/class_nexus_file.py names `qy_range`
  and `qx_range`, which it never defines. So after calling the library's horizontal
  integration it always raises `NameError`
  (`Nexus.NexusFile.ProcessVerticalIntegration`). Its default group is `DATA_HOR_INT`.
- The test at test_utilitary_functions.py:61-65 feeds the package converter `"None"` or
  `""` and expects the same string back. The code returns `None` for both
  (`Parsing.LoweredNone`, `Parsing.EmptyStringValues`).

Floats are exact reals throughout.

## Model

| member | source | states |
|---|---|---|
| H5.EmptyFile | saxs_nxformat/nxfile_generator.py:150 | a freshly created file is a well-formed tree holding only its root group |
| H5.DeleteKeepsValid | saxs_nxformat/utils.py:180-183 | `del f[p]` keeps the file well-formed and removes exactly the subtree at `p` |
| H5.CreateKeepsValid | saxs_nxformat/utils.py:188-203 | `create_dataset` keeps the file well-formed, stores the node, changes no existing node and adds only the node and its missing parent groups |
| H5.PutAttrKeepsValid | saxs_nxformat/utils.py:206-207 | setting an attribute changes that one node's attributes and no node set |
| H5.DropAttrKeepsValid | saxs_nxformat/utils.py:311-317 | deleting an attribute removes it from that node and changes no node set |
| H5.CopyKeepsValid | saxs_nxformat/utils.py:249-250 | `f.copy` keeps the file well-formed and every existing node unchanged |
| H5.CopyReplicates | saxs_nxformat/utils.py:249-250 | after a copy the subtree at the destination is exactly the source subtree, node for node, attributes included |
| H5.CopyPlacesSubtree | saxs_nxformat/utils.py:249-250 | each node of the source subtree appears at its shifted path under the destination |
| H5.NothingBelowAbsent | saxs_nxformat/utils.py:341-342 | in a well-formed file nothing hangs below a path that is absent |
| H5.File.constructor | saxs_nxformat/class_nexus_file.py:101 | an open file holds the given tree |
| H5.File.Delete | saxs_nxformat/utils.py:183 | `del f[p]` changes the tree as `DeleteLink` and leaves it unchanged when it raises |
| H5.File.CreateDataset | saxs_nxformat/utils.py:188-203 | `create_dataset` changes the tree as `CreateNode` with a dataset without attributes |
| H5.File.CreateGroup | saxs_nxformat/nxfile_generator.py:106 | `create_group` changes the tree as `CreateNode` with an empty group |
| H5.File.Require | nexus_generation.py:99 | `require_group` keeps an existing group, raises on another kind of object and creates a missing group |
| H5.File.CreateSoftLink | nexus_generation.py:105 | assigning an `h5py.SoftLink` stores the link node |
| H5.File.SetAttr | saxs_nxformat/utils.py:206-207 | `attrs[k] = v` changes the tree as `PutAttr` |
| H5.File.DelAttr | saxs_nxformat/utils.py:311 | `del attrs[k]` changes the tree as `DropAttr` and raises `KeyError` on a missing attribute |
| H5.File.Copy | saxs_nxformat/utils.py:249-250 | `f.copy` changes the tree as `CopyNode` |
| Parsing.PyIntOfIntToString | saxs_nxformat/utils.py:64-65 | `int()` reads back the integer that `str()` prints |
| Parsing.IntTextShapes | saxs_nxformat/utils.py:58-65 | a printed integer is lower-case, has the integer shape and none of the None, decimal or exponent shapes |
| Parsing.TypedValueOfInt | saxs_nxformat/utils.py:46-65 | the utils converter reads a printed integer back as that integer, whatever the NeXus type |
| Parsing.RawValueOfInt | edf2nxsas/nexus_file_generator.py:111-123 | the edf2nxsas converter reads a printed integer back as that integer |
| Parsing.LoweredValueOfInt | package/auto_edf2h5.py:38-41 | the lowering converter reads a printed integer back as that integer |
| Parsing.DecimalTextShape | saxs_nxformat/utils.py:58-62 | a literal `[-]whole.frac` with a digit has the decimal shape, is lower-case and is no None word |
| Parsing.UnsignedFloatOfDecimal | saxs_nxformat/utils.py:61-62 | `float()` of `whole.frac` is the real number it denotes |
| Parsing.PyFloatOfDecimal | saxs_nxformat/utils.py:61-62 | `float()` of `[-]whole.frac` is the signed number it denotes |
| Parsing.TypedValueOfDecimal | saxs_nxformat/utils.py:46-62 | the utils converter turns `[-]whole.frac` into the float it denotes, for every unit type |
| Parsing.RawValueOfDecimal | edf2nxsas/nexus_file_generator.py:120-121 | the edf2nxsas converter turns `[-]whole.frac` into the float it denotes |
| Parsing.LoweredValueOfDecimal | package/auto_edf2h5.py:38-39 | the lowering converter turns `[-]whole.frac` into the float it denotes |
| Parsing.TypedFloat | saxs_nxformat/utils.py:58-62 | a lower-case text of decimal shape that is no None word is handed to `float()`, whose error is the converter's |
| Parsing.RawFloat | edf2nxsas/nexus_file_generator.py:120-121 | a text of decimal shape is handed to `float()` by the edf2nxsas converter |
| Parsing.LoweredFloat | package/auto_edf2h5.py:38-39 | a text of decimal shape is handed to `float()` by the lowering converter |
| Parsing.CommaDecimalRaises | saxs_nxformat/utils.py:61-62 | `"1,5"` passes the decimal shape and then `float()` raises, in the utils and edf2nxsas converters |
| Parsing.CommaFloatRaises | saxs_nxformat/utils.py:62 | `float("1,5")` raises |
| Parsing.EmptyStringValues | saxs_nxformat/utils.py:46-59 | an empty string gives `0.0`, `"N/A"`, the zero date, `False` or `"None"` by NeXus type and `None` without a type; the lowering converter gives `None` and the edf2nxsas converter keeps `""` |
| Parsing.MissingStringDefaults | edf2nxsas/nexus_file_generator.py:111-119 | a missing string gives `0.0`, `"N/A"` or the zero date by type, and `"None"` for any other type, `NX_BOOLEAN` included |
| Parsing.RawValue | edf2nxsas/nexus_file_generator.py:86-127 | the edf2nxsas `string_2_value`: the per-type default of a missing string, then the shapes tested on the string as given, with the separator mandatory and the text never lowered; its properties are the `Parsing.RawValue…`, `RawFloat` and `RawShapesAreCaseSensitive` rows |
| Parsing.RawValueKinds | edf2nxsas/nexus_file_generator.py:120-127 | a given string becomes a float, an int, or the string itself unchanged (not lowered), or raises |
| Parsing.TypedValue | saxs_nxformat/utils.py:15-79 | the utils `string_2_value(string, unit_type)`: the per-type default of an empty typed string, then None words, integers, floats of both shapes, booleans and upper-cased snake words, in the order the branches test them; its properties are the `Parsing.TypedValueOf…`, `TypedNoneIff`, `TypedFloat` and `TypedText` rows |
| Parsing.TypedNoneIff | saxs_nxformat/utils.py:46-59 | the result is `None` if and only if the lower-cased text is a None word and the string is not the empty string of a typed field |
| Parsing.TypedOtherwiseNotNone | saxs_nxformat/utils.py:61-79 | no branch after the None test yields `None` |
| Parsing.TypedBooleans | saxs_nxformat/utils.py:46-71 | `"true"` and `"false"`, in any case and with or without a unit type, become `True` and `False`: no earlier branch takes them |
| Parsing.MixedCaseBooleans | saxs_nxformat/utils.py:67-71 | `"TruE"` gives `True` and `"FAlsE"` gives `False`, as saxs_nxformat/tests/test_utils.py expects |
| Parsing.TypedText | saxs_nxformat/utils.py:67-77 | past the None and number shapes, `"true"`/`"false"` do not apply and a snake word is upper-cased, any other text is returned unchanged |
| Parsing.SnakeShapes | saxs_nxformat/utils.py:58-73 | a snake_case word has none of the None, decimal, exponent or boolean shapes |
| Parsing.SnakeIsNotInteger | saxs_nxformat/utils.py:64-65 | a text whose lower case is a snake word does not have the integer shape |
| Parsing.SnakeWordsAreUpperCased | saxs_nxformat/utils.py:73-74 | letters joined by underscores come back upper-cased |
| Parsing.UnsignedExponentStaysString | saxs_nxformat/utils.py:61-77 | digits with an exponent mark and no sign after it (and at most one `.`) are returned as the same string |
| Parsing.NumberLikeStaysString | saxs_nxformat/utils.py:58-77 | a digit-bounded text with no upper-case letter, no underscore and none of the number shapes is returned unchanged |
| Parsing.UnsignedExponentShapes | saxs_nxformat/utils.py:61-65 | an exponent without sign matches neither number shape nor the integer shape |
| Parsing.ExponentsWithoutSignStayStrings | saxs_nxformat/utils.py:61-77 | `"1e4"` and `"1.56e4"` are returned as strings, not the floats the tests of saxs_nxformat/tests/test_utils.py expect |
| Parsing.SignedExponentLongMantissa | saxs_nxformat/utils.py:61-77 | `"26.397e-3"` is returned as a string: the exponent shape allows one digit before the separator |
| Parsing.LongMantissaShapes | saxs_nxformat/utils.py:61 | `"26.397e-3"` has neither number shape |
| Parsing.RawShapesAreCaseSensitive | edf2nxsas/nexus_file_generator.py:120-125 | `"1.5E+3"` and `"15e+3"` stay strings while `"1.5e+3"` becomes `1500.0` |
| Parsing.UpperExponentIsString | edf2nxsas/nexus_file_generator.py:120-125 | an upper-case exponent mark is not read as a number |
| Parsing.SignedExponentIsFloat | edf2nxsas/nexus_file_generator.py:120-121 | `"1.5e+3"` is the float `1500.0` |
| Parsing.ExponentFloat | edf2nxsas/nexus_file_generator.py:121 | `float("1.5e+3")` is `1500.0` |
| Parsing.ExponentNeedsSeparator | edf2nxsas/nexus_file_generator.py:120-125 | an exponent form without separator stays a string |
| Parsing.LoweredValue | package/auto_edf2h5.py:22-47 | the lowering `string_2_value` that four files repeat: floats, integers, `None` for a stripped `"none"` or empty text, and the lower-cased text otherwise; its properties are the `Parsing.Lowered…` rows |
| Parsing.LoweredWords | package/auto_edf2h5.py:38-45 | `"None"` and `" NONE "` give `None`, `"duMmY"` gives `"dummy"` |
| Parsing.LoweredNone | package/auto_edf2h5.py:42-43 | `"None"` gives `None` |
| Parsing.LoweredSpacedNone | package/auto_edf2h5.py:42-43 | `" NONE "` gives `None`, spaces stripped |
| Parsing.LoweredDummy | package/auto_edf2h5.py:44-45 | any other word is lower-cased |
| Parsing.LoweredWord | package/auto_edf2h5.py:38-45 | a word with no digit start, sign or separator gives `None` when its stripped lower case is `"none"` or empty, and its lower case otherwise |
| Units.ConvertSpec | saxs_nxformat/utils.py:82-148 | `convert` as a value, for both dialects: the pass-through cases, the last type naming each unit, the dialog or `"fail"`, then the arithmetic of the type; its properties are the `Units.Convert…`, `Rescale…`, round-trip and `FailIff` rows |
| Units.Convert | saxs_nxformat/utils.py:107-148 | the lookup loop over the table and the branches after it compute exactly `ConvertSpec`, for both dialects |
| Units.LastTypeOfIsLast | saxs_nxformat/utils.py:109-116 | the lookup settles on the last type naming the unit, and on none exactly when no type names it |
| Units.LastTypeOfAt | saxs_nxformat/utils.py:111-116 | an entry naming the unit with no later entry naming it gives the unit's type |
| Units.FactorsOfAt | saxs_nxformat/utils.py:128-143 | in a table with distinct type names, `table[name]` is the entry of that name |
| Units.FactorOfKnown | saxs_nxformat/utils.py:128-143 | a unit with a type has a factor in that type, the one the arithmetic reads |
| Units.ConvertSameType | saxs_nxformat/utils.py:118-125 | two units the lookup puts in one type reach the arithmetic without the error dialog |
| Units.RescaleLinear | saxs_nxformat/utils.py:141-145 | the linear branch multiplies by `start / end` |
| Units.RescaleAngle | saxs_nxformat/utils.py:127-133 | the angle branch multiplies by `turn / start`, then by `end / turn` |
| Units.RescaleTemperature | saxs_nxformat/utils.py:134-140 | the temperature branch subtracts the offset of `"C"` when converting to `"C"`, and adds the start offset otherwise |
| Units.PassThroughUnchanged | saxs_nxformat/utils.py:107-108 | a `None` number, or an `"arbitrary"` unit in the utils and edf2nxsas dialect, is returned unchanged without a dialog |
| Units.FailIff | saxs_nxformat/utils.py:118-128 | `"fail"` is returned if and only if testing mode is on and both units are known but of different types, and then no dialog is shown; an unknown unit in testing mode shows the dialog and then raises instead (`Units.UnknownUnitRaises`) |
| Units.RescaleIsNumber | saxs_nxformat/utils.py:127-148 | rescaling a number gives a float or raises, never a string |
| Units.UnknownUnitRaises | saxs_nxformat/utils.py:118-128 | a unit no type names opens the error dialog and the conversion then raises |
| Units.RescaleMissingEnd | saxs_nxformat/utils.py:142-143 | an end unit missing from the start unit's type raises `KeyError` |
| Units.ConvertLinear | saxs_nxformat/utils.py:107-148 | between two units of one linear type, the result is `number * start / end` |
| Units.ConvertAngle | saxs_nxformat/utils.py:127-133 | between two angle units, the result is `number * end / start` over the reals |
| Units.LinearRoundTrip | saxs_nxformat/utils.py:141-145 | A to B and back to A gives the number back, for linear types |
| Units.AngleRoundTrip | saxs_nxformat/utils.py:127-133 | A to B and back to A gives the number back, for angles |
| Units.SameUnitIdentity | saxs_nxformat/utils.py:127-145 | converting a unit to itself is the identity, for every type but temperatures |
| Units.ConvertTemperature | edf2nxsas/nexus_file_generator.py:69-75 | temperatures: to `"C"` subtracts the offset of `"C"`, to any other unit adds the offset of the start unit |
| Units.CelsiusRoundTrip | edf2nxsas/nexus_file_generator.py:69-75 | to `"C"` and back to the start unit gives the number back |
| Units.PackageTypes | package/nexus_format.py:120-129 | in the package table, `mm` and `nm` are lengths and `deg`, `rad` and `turn` are angles, and type names are distinct |
| Units.PackageFactors | package/nexus_format.py:120-129 | the package table's factors of `mm`, `nm`, `deg`, `turn` and `rad` |
| Units.MillimetresToNanometres | nexus_generation.py:62-66 | with the package table, millimetres become nanometres by a factor of a million |
| Units.DegreesToRadians | nexus_generation.py:55-61 | with the package table, degrees become radians by `2 * pi / 360` |
| Units.AcrossTypes | nexus_generation.py:47-52 | across types, testing mode returns `"fail"` and the dialog mode opens the dialog and raises |
| Containers.Zeros | saxs_nxformat/utils.py:263-285 | `np.zeros(shape)` has that shape, as many cells as the shape holds, every one `0.0` |
| Containers.ReplaceRun | saxs_nxformat/utils.py:151-207 | `replace_h5_dataset` as a step function: read the old attributes, delete the old link, create the new dataset, copy the attributes; its properties are the `Containers.Replace…` rows |
| Containers.ReplaceDataset | saxs_nxformat/utils.py:151-207 | the h5py calls of `replace_h5_dataset`, run on the file object in place, leave exactly the tree and exception of the step function `ReplaceRun` |
| Containers.SetAttrs | saxs_nxformat/utils.py:206-207 | the attribute loop gives the new dataset exactly the copied attributes and changes no other node |
| Containers.ReplaceInPlace | saxs_nxformat/utils.py:180-207 | replacing an existing dataset at its own path swaps its data, keeps its attributes and changes nothing else in the file |
| Containers.ReplaceKeepsAttributes | saxs_nxformat/class_nexus_file.py:30-67 | a successful replacement stores the new data at the target with the attributes of the dataset it replaced |
| Containers.ReplaceAbsent | saxs_nxformat/utils.py:180-185 | without an old dataset the utility version gives the new dataset the units `1/nm`, while the class modules' copies raise `KeyError` and leave the file untouched |
| Containers.ReplaceStores | saxs_nxformat/utils.py:188-203 | after a successful replacement the target is a dataset holding exactly the new data |
| Containers.ReplaceRemovesOld | saxs_nxformat/utils.py:183-192 | with a new path the old path is gone afterwards unless the new dataset lies below it |
| Containers.ReplaceFrame | saxs_nxformat/utils.py:151-207 | a replacement changes only the old subtree, the target and the groups created above the target |
| Containers.ReplaceKeepsValid | saxs_nxformat/utils.py:151-207 | replacing keeps the file a well-formed tree, whether or not it raises |
| Containers.SaveData | saxs_nxformat/utils.py:210-322 | the h5py calls of `save_data` leave the tree and exception of running its step list `SaveOps` from the old file |
| Containers.ClearGroup | saxs_nxformat/utils.py:241-250 | deleting the group and copying `/ENTRY/DATA` in its place behaves as the step list `ClearOps` |
| Containers.WriteAxis | saxs_nxformat/utils.py:255-285 | the axis writes (`Q` moved to the symbol, zero resolutions) behave as the step list `AxisOps` |
| Containers.WriteIntensity | saxs_nxformat/utils.py:287-305 | the intensity, uncertainty and mask writes behave as the step list `IntensityOps` |
| Containers.WriteSchema | saxs_nxformat/utils.py:307-322 | the rank-dependent deletions and attributes behave as the step list `SchemaOps` |
| Containers.ClassSaveData | saxs_nxformat/class_nexus_file.py:597-624 | the class method's calls leave the tree and exception of its step list `ClassSaveOps` |
| Containers.DeleteData | saxs_nxformat/utils.py:325-344 | the calls of `delete_data` leave the tree and exception of its step list `DeleteOps` |
| Containers.RootCheckedDeleteData | saxs_nxformat/class_nexus_file.py:626-639 | the class method, testing the name at the root, behaves as `RootCheckedDeleteOps` |
| Containers.CreateProcess | saxs_nxformat/class_nexus_file.py:70-77 | the calls of `create_process` leave the tree and exception of its step list `ProcessOps` |
| Containers.ExecChain | saxs_nxformat/utils.py:210-322 | running two step lists one after the other is running their concatenation, the first exception stopping both |
| Containers.AncestorsPresent | saxs_nxformat/utils.py:188-203 | in a well-formed file every proper prefix of a node's path is a group |
| Containers.ExecAvoids | saxs_nxformat/utils.py:210-322 | a node that every step leaves alone survives the procedure unchanged, even when it raises |
| Containers.ExecOutside | saxs_nxformat/utils.py:210-322 | a procedure whose steps all lie in one subtree changes nothing outside it, even when it raises |
| Containers.ExecKeepsValid | saxs_nxformat/utils.py:151-344 | every procedure keeps the file a well-formed tree, also when it stops on an exception |
| Containers.SaveTouchesOnlyItsGroup | saxs_nxformat/utils.py:241-322 | `save_data` changes nothing outside `/ENTRY/<GROUP>`, whether or not it raises |
| Containers.DataGroupIsNeverCleared | saxs_nxformat/utils.py:244-250 | for the group `DATA` no deletion or copy is made |
| Containers.ClearAndCopyCopiesData | saxs_nxformat/utils.py:244-250 | any other group becomes an exact copy of `/ENTRY/DATA`: every node of `DATA` appears under it with its attributes, and nothing else is under it |
| Containers.DataSurvivesClear | saxs_nxformat/utils.py:244-245 | deleting another group leaves the nodes of `/ENTRY/DATA` as they were |
| Containers.ClearSteps | saxs_nxformat/utils.py:244-250 | a successful clear is the deletion (when the group exists) followed by the copy |
| Containers.SavePhases | saxs_nxformat/utils.py:241-322 | a successful save runs the clear, the axis, the intensity and the schema phases in that order, none of them raising |
| Containers.IntensityStored | saxs_nxformat/utils.py:287-305 | after the intensity steps the group holds the intensity at `I` and the mask at `mask` |
| Containers.AxesAttrsSet | saxs_nxformat/utils.py:311-318 | the group ends with `I_axes = "Q"`, `Q_indices = [0]` and `mask_indices = [0]` and the same set of nodes |
| Containers.ReplaceAttr | saxs_nxformat/utils.py:311-318 | `del attrs[k]` then `attrs[k] = v` succeeds only on an existing attribute and overwrites it |
| Containers.OneDimensionalSchema | saxs_nxformat/utils.py:308-318 | the rank-1 schema deletes `mask`, points the axis attributes at `Q` and changes nothing else |
| Containers.TwoDimensionalSchema | saxs_nxformat/utils.py:319-322 | the rank-2 schema deletes `Qdev`, `dQl` and `dQw` and changes nothing else |
| Containers.SaveOneDimensional | saxs_nxformat/utils.py:307-318 | a successful save of a rank-1 intensity leaves a group with the intensity, no `mask` and axis attributes pointing at `Q` |
| Containers.SaveTwoDimensional | saxs_nxformat/utils.py:319-322 | a successful save of a rank-2 intensity leaves a group with the intensity and the mask and without `Qdev`, `dQl`, `dQw` |
| Containers.ClassSaveOfDataLosesIt | saxs_nxformat/class_nexus_file.py:617-619 | saving into `DATA` with the class method deletes `/ENTRY/DATA` before copying it, so the call raises `KeyError` and the file is left without `DATA` |
| Containers.ClassSaveMovesR | saxs_nxformat/class_nexus_file.py:617-624 | a successful class save holds the parameter at the symbol and the intensity at `I`, each with the attributes of `DATA`'s `R` and `I`, and no `R` |
| Containers.DeleteDataRemovesGroup | saxs_nxformat/utils.py:340-342 | an existing group is removed with everything below it, and nothing else changes |
| Containers.DeleteDataOfAbsentGroup | saxs_nxformat/utils.py:341-344 | a group absent from `/ENTRY` leaves the file unchanged; the call raises exactly when `/ENTRY` is missing |
| Containers.RootCheckMissesEntryGroups | saxs_nxformat/class_nexus_file.py:635-639 | when the name is not at the root the class method deletes nothing, even if `/ENTRY/<GROUP>` exists |
| Containers.RootCheckRaisesForRootNames | saxs_nxformat/class_nexus_file.py:635-637 | a name present at the root but absent from `/ENTRY` makes `del` raise `KeyError` |
| Containers.RootCheckCounterexample | saxs_nxformat/class_nexus_file.py:635-639 | on a file holding `/ENTRY/Q`, `delete_data("q")` keeps the group in the class method and removes it in the utility |
| Containers.ProcessWritesGroup | saxs_nxformat/class_nexus_file.py:70-77 | a successful `create_process` leaves a `SASprocess` group holding exactly the datasets `name` and `description` with the given strings, a well-formed file, and nothing changed outside the group |
| Containers.ProcessGroupPhase | saxs_nxformat/class_nexus_file.py:71-74 | the first three steps leave a fresh group with only the `canSAS_class` attribute and nothing below it |
| Containers.ProcessClears | saxs_nxformat/class_nexus_file.py:71-72 | the conditional deletion only removes nodes, and none when the path is absent |
| Containers.ProcessMakesGroup | saxs_nxformat/class_nexus_file.py:73 | `create_group` leaves an empty group with nothing below it |
| Containers.ProcessChild | saxs_nxformat/class_nexus_file.py:76-77 | creating a dataset in the group adds only that node and keeps every other one |
| SaxsConfig.LeafValue | saxs_nxformat/create_config.py:510-523 | a dataset or attribute entry that gets its value holds `value` and no widget, every other member unchanged |
| SaxsConfig.LeafValueCases | saxs_nxformat/create_config.py:511-523 | the value is the single possible value; otherwise `[widget text, second possible value]` for `@units` and the widget text for any other key; a multi-valued entry without a widget raises `KeyError`, and a `@units` entry with fewer than two possible values raises |
| SaxsConfig.LeafValueOfObject | saxs_nxformat/create_config.py:511-523 | a `possible value` that is a JSON object counts its keys: with one key `possible_value[0]` raises `KeyError(0)`; otherwise the widget is read, a missing one raising `KeyError`, and a `@units` entry then raises `KeyError(1)` |
| SaxsConfig.FillConfig | saxs_nxformat/create_config.py:504-527 | `fill_config` as a value: the tree after the call and the exception that stopped it, the entries before a failing one already filled; `FillConfigFills` and `LeafValueCases` state what it leaves |
| SaxsConfig.FillConfigFills | saxs_nxformat/create_config.py:504-527 | a `fill_config` that returns leaves every dataset and attribute entry at every depth with its `value` and without its widget |
| SaxsConfig.FillMembersFill | saxs_nxformat/create_config.py:505 | the loop over the members of one level fills every entry of that level |
| SaxsConfig.FillEntryFills | saxs_nxformat/create_config.py:506-527 | one iteration fills its entry and, through the recursion, its whole `content` |
| SaxsConfig.GroupsGetNoValue | saxs_nxformat/create_config.py:510-527 | entries that are neither datasets nor attributes keep every member apart from the filled `content` |
| SaxsConfig.Setting.constructor | saxs_nxformat/create_config.py:189-192 | the editor window holds the configuration tree it loaded (the JSON reading is a parameter) |
| SaxsConfig.Setting.SaveSettings | saxs_nxformat/create_config.py:498-551 | an exception of `fill_config` leaves the tree filled up to that entry; an instrument name with `_` writes nothing and keeps the filled tree; otherwise the file name `settings_EDF2NX_<instrument>_<stamp>.json` is returned and the tree emptied |
| Grids.Linspace | saxs_nxformat/nxfile_generator.py:51-52 | `np.linspace(a, b, n)` has `n` values, starting at `a` |
| Grids.LinspaceEnds | saxs_nxformat/nxfile_generator.py:51-52 | with two or more values the last one is `b` exactly |
| Grids.LinspaceStep | saxs_nxformat/nxfile_generator.py:51-52 | consecutive values are `(b - a) / (n - 1)` apart |
| Grids.Scale | saxs_nxformat/nxfile_generator.py:54-58 | multiplying by a pixel size scales every value and keeps the length |
| Grids.Vector | saxs_nxformat/class_nexus_file.py:228-229 | a one-dimensional float dataset holds the values in order, with shape `(n,)` |
| Grids.Mesh | saxs_nxformat/nxfile_generator.py:60-62 | the stacked mesh has shape `(len(ys), len(xs), 2)` and as many cells |
| Grids.MeshAt | saxs_nxformat/nxfile_generator.py:60-62 | entry `[i][j]` of the stacked mesh holds `xs[j]` then `ys[i]` |
| Grids.MeshPoint | saxs_nxformat/nxfile_generator.py:60-62 | the point predicate reads `(xs[j], ys[i])` back from entry `[i][j]` |
| Grids.MinIsLeast | saxs_nxformat/class_nexus_file.py:281 | Python's `min` is an element of the sequence and no element is smaller |
| Grids.MaxIsGreatest | saxs_nxformat/class_nexus_file.py:282 | Python's `max` is an element of the sequence and no element is larger |
| Forms.Item | package/auto_edf2h5.py:89-90 | indexing a Python list succeeds exactly inside its bounds, with that element, and raises `IndexError` otherwise |
| Forms.Autofill | package/auto_edf2h5.py:72-97 | the loop over the parameter dictionary computes exactly `AutofillSpec`: the filled copy or the first exception |
| Forms.FillOne | package/auto_edf2h5.py:88-95 | the body of the loop for one key computes exactly `AutofillEntry` |
| Forms.AutofillAfterError | package/auto_edf2h5.py:87-95 | once an entry raises, the whole autofill raises that exception |
| Forms.AutofillPrefixError | package/auto_edf2h5.py:87-95 | an exception in a prefix of the keys is the outcome of every longer run |
| Forms.AutofillOkIff | package/auto_edf2h5.py:87-97 | the autofill succeeds exactly when every key does, and then gives key by key what the loop body gives |
| Forms.AutofillKeepsAbsent | package/auto_edf2h5.py:88 | a key the settings do not name keeps its default entry |
| Forms.AutofillSetsPresent | package/auto_edf2h5.py:88-95 | a named key gets the parsed lower-cased header value, its `units` (when it has one) replaced by the settings' unit, and keeps its path, name, options and other attributes |
| Forms.AutofillMissingHeaderKey | package/auto_edf2h5.py:89-92 | reaching a key whose EDF key is not in the header raises `KeyError` with that key |
| Forms.IndexOfKey | package/gui_edf2h5.py:530 | the position found holds the key, and none is found exactly when no entry has that key |
| Forms.CheckCompletion | package/gui_edf2h5.py:507-562 | the widget loop of `_check_completion` ends exactly in the outcome of the scan `CompletionScan`: the filled copy, the refused key, or the exception |
| Forms.CompletionAfterStop | package/gui_edf2h5.py:545-551 | once the loop stops on a refusal or an exception, later widgets change nothing |
| Forms.IndexOfSameKeys | package/gui_edf2h5.py:519-530 | finding a key depends only on the keys of the dictionary |
| Forms.ScanShape | package/gui_edf2h5.py:519-562 | the loop keeps the keys and names of the copy, and while it runs its key is the text of the last label seen |
| Forms.RunningPrefix | package/gui_edf2h5.py:519-562 | a loop that did not stop did not stop on any prefix of the widgets |
| Forms.CompletionFilledAccepted | package/gui_edf2h5.py:530-537 | a filled result means every value field was accepted under the key of the label before it |
| Forms.CompletionRefusedWitness | package/gui_edf2h5.py:538-551 | a refusal names the key of a required value field that was left `none` or empty |
| Forms.Visit | package/gui_edf2h5.py:523-562 | one widget keeps the set of keys being filled, and only a label changes the current key, to its own text |
| Forms.VisitKeepsValue | package/gui_edf2h5.py:523-562 | a widget that is not a value field under a key leaves that key's value alone |
| Forms.VisitSetsValue | package/gui_edf2h5.py:537-541 | an accepted value field sets its key's value to the parsed lower-cased text |
| Forms.CompletionLastValue | package/gui_modify_h5.py:383-399 | the value a filled key ends with is read from the last value field under its label |
| Forms.VisitKeepsAttrs | package/gui_edf2h5.py:523-562 | a widget that is not a unit box leaves the attributes alone |
| Forms.VisitSetsUnits | package/gui_edf2h5.py:560-562 | a unit box sets its key's `units` attribute to the lower-cased text |
| Forms.CompletionLastUnit | package/gui_modify_h5.py:383-416 | the units a filled key ends with are those of the last unit box under its label, lower-cased |
| Generator.PixelAxis | saxs_nxformat/nxfile_generator.py:51-58 | the written axis has one position per pixel |
| Generator.CentredAxis | saxs_nxformat/nxfile_generator.py:51-58 | the corrected axis has one position per pixel |
| Generator.NegativeMask | saxs_nxformat/nxfile_generator.py:65 | the mask succeeds exactly on an all-numeric image, has its shape, and cell `k` is true exactly when pixel `k` is negative |
| Generator.Field | saxs_nxformat/nxfile_generator.py:111 | `value[key]` succeeds exactly when the entry has the key, with its value |
| Generator.StoreAttrOn | saxs_nxformat/nxfile_generator.py:130 | setting one attribute on the file object behaves as `StoreAttr` |
| Generator.PutFieldOn | saxs_nxformat/nxfile_generator.py:133-135 | copying one settings field to an attribute behaves as `PutField` |
| Generator.Describe | saxs_nxformat/nxfile_generator.py:132-135 | the three descriptive attribute writes behave as `DescribeRun` |
| Generator.FillContentOn | saxs_nxformat/nxfile_generator.py:107-108 | the recursive call on a `content` value behaves as `FillContent` |
| Generator.Fill | saxs_nxformat/nxfile_generator.py:94-135 | the loop of `fill_hdf5` over a dictionary, run on the file object, leaves exactly the tree and exception of `FillMembers` |
| Generator.FillItem | saxs_nxformat/nxfile_generator.py:96-135 | one iteration (group, dataset, attribute or other entry) behaves as `FillMember` |
| Generator.BuildOn | saxs_nxformat/nxfile_generator.py:104-122 | creating a group or dataset and furnishing it behaves as `Build` |
| Generator.FurnishOn | saxs_nxformat/nxfile_generator.py:107-135 | filling the new element's content and describing it behaves as `Furnish` |
| Generator.GenerateNexus | saxs_nxformat/nxfile_generator.py:137-157 | a missing sample-name key raises before the file is opened; otherwise the call ends in the exception of `GenerateRun`, never returning a path |
| Generator.PlaceArraysOn | saxs_nxformat/nxfile_generator.py:154-156 | the three intended replacements behave as the step list `PlaceArrays` |
| Generator.GenerateNexusCorrected | saxs_nxformat/nxfile_generator.py:137-157 | with the dataset type passed, and the pixel axis built as written or centred, the file ends as `CorrectedGenerateRun` and a success returns the joined path `<sample>_img<index>_<stamp>.h5` |
| Generator.PixelAxisEnds | saxs_nxformat/nxfile_generator.py:51-58 | the written axis starts at `-center` and ends at `n - center` pixel sizes, one pixel beyond the last pixel's own index |
| Generator.PixelAxisSpacing | saxs_nxformat/nxfile_generator.py:51-58 | neighbouring positions of the written axis are `n / (n - 1)` pixel sizes apart instead of one |
| Generator.PixelAxisOvershoots | saxs_nxformat/nxfile_generator.py:51-58 | with two pixels of size 1 centred on the first, the written axis gives `[0, 2]` and the centred one `[0, 1]` |
| Generator.CentredAxisSpacing | saxs_nxformat/nxfile_generator.py:51-58 | on the corrected axis neighbours are one pixel size apart and the first pixel agrees with the written axis |
| Generator.DataTreatment | saxs_nxformat/nxfile_generator.py:29-69 | `data_treatment` as a value: the metadata reads in program order, `IndexError` for an image of rank below 2, then the grid, the image and its mask; `TreatmentGrid` states the result |
| Generator.TreatmentGrid | saxs_nxformat/nxfile_generator.py:29-69 | `data_treatment` returns the image unchanged, the mask of its negative pixels and the stacked grid whose entry `(i, j)` holds the positions of the two axes |
| Generator.GrowsRefl | saxs_nxformat/nxfile_generator.py:94-135 | the growth order on files is reflexive |
| Generator.GrowsTrans | saxs_nxformat/nxfile_generator.py:94-135 | the growth order on files is transitive |
| Generator.CreateGrows | saxs_nxformat/nxfile_generator.py:106 | creating a node keeps the file well-formed and every node it had, and a success stores the node |
| Generator.StoreAttrGrows | saxs_nxformat/nxfile_generator.py:130 | storing an attribute keeps every node and the node set, and a success stores the value |
| Generator.PutFieldGrows | saxs_nxformat/nxfile_generator.py:133-135 | copying a field keeps every node and, on success, the node carries that field |
| Generator.DescribeSets | saxs_nxformat/nxfile_generator.py:132-135 | after the three writes the node carries `EX_required`, `type` and `docstring` from its settings entry |
| Generator.FillMembersGrows | saxs_nxformat/nxfile_generator.py:94-135 | filling keeps the file well-formed and every node it had, and below a dataset creates no node |
| Generator.FillContentGrows | saxs_nxformat/nxfile_generator.py:107-122 | the same for the recursive call on a `content` value |
| Generator.FillMemberGrows | saxs_nxformat/nxfile_generator.py:96-135 | the same for one iteration |
| Generator.BuildGrows | saxs_nxformat/nxfile_generator.py:104-135 | building an element keeps the file well-formed and every node it had |
| Generator.FurnishGrows | saxs_nxformat/nxfile_generator.py:107-135 | furnishing an element keeps the file well-formed and every node it had, and on a dataset adds no node |
| Generator.FurnishDescribes | saxs_nxformat/nxfile_generator.py:132-135 | a furnished element carries the three descriptive fields |
| Generator.BuildPlaces | saxs_nxformat/nxfile_generator.py:104-135 | a built element is new, of the kind created, and described |
| Generator.FillMemberPlaces | saxs_nxformat/nxfile_generator.py:104-130 | a group or dataset entry creates its described element below the parent, an attribute entry sets the parent's attribute, any other entry changes nothing |
| Generator.OutputNameOfImage | saxs_nxformat/nxfile_generator.py:146-147 | the file name carries the sample, `_img`, the last `_`-field of the EDF name and the stamp |
| Generator.GenerateAlwaysRaises | saxs_nxformat/nxfile_generator.py:150-157 | as written the call always ends in an exception, even when the settings fill and the arrays compute |
| Generator.CorrectedPlacesArrays | saxs_nxformat/nxfile_generator.py:153-156 | with the type passed, whichever rule builds the pixel axis, the three placeholder datasets keep their attributes and receive the computed arrays, and nothing else changes |
| Generator.PlaceArraysInPlace | saxs_nxformat/nxfile_generator.py:154-156 | the three replacements store `R`, `I` and `mask` in place and leave every other node |
| Layout.Scan | saxs_nxformat/nxfile_generator.py:173-179 | the scan of a listing, each matching name replacing the one found before; `ScanFindsLast` and `EdfIsNeverSettings` state what it finds |
| Layout.ScanListing | saxs_nxformat/nxfile_generator.py:173-179 | the loop over the listing ends with exactly the names of the scan `Scan` |
| Layout.SearchSettingEdf | saxs_nxformat/nxfile_generator.py:160-187 | both paths joined under the directory when the listing has an EDF and a settings name, and neither otherwise |
| Layout.AutoSearchSettingEdf | package/auto_edf2h5.py:100-119 | the two names the listing scan finds, each possibly missing |
| Layout.ScanFindsLast | saxs_nxformat/nxfile_generator.py:175-179 | a name of each kind is found exactly when the listing has one, and it is the last name of that kind |
| Layout.EdfIsNeverSettings | saxs_nxformat/nxfile_generator.py:176-179 | an EDF name is never taken for the settings file, even when it holds the marker |
| Layout.SaxsInvalidIff | saxs_nxformat/nxfile_generator.py:208-212 | the manager answers `Invalid settings file format` exactly when the name, without its prefix, has fewer than two underscores |
| Layout.DetectorLabel | saxs_nxformat/nxfile_generator.py:218-225 | the second `_`-field of the data file name gives `SAXS` for `0`, `WAXS` for `1` and `other` otherwise |
| Layout.EdfToNx | saxs_nxformat/nxfile_generator.py:214 | `EDF2NX` splits into the formats `EDF` and `NX` |
| Layout.SaxsReadsConfigName | saxs_nxformat/nxfile_generator.py:208-215 | a name the configuration editor writes is read back as `EDF` to `NX` with its instrument and stamp |
| Layout.SaxsDirectories | saxs_nxformat/nxfile_generator.py:227-236 | the two directories are the root, the instrument, configuration, experiment and detector directories and the format, differing in the format alone |
| Layout.SaxsTree | saxs_nxformat/nxfile_generator.py:190-243 | `tree_structure_manager` of the current converter as a value; `SaxsInvalidIff`, `SaxsDirectories` and `SaxsTreeDirs` state its outcomes |
| Layout.SaxsTreeDirs | saxs_nxformat/nxfile_generator.py:227-241 | with permission the manager returns the two directories built from the fields |
| Layout.LastDirDecides | saxs_nxformat/nxfile_generator.py:235-236 | two directories with the same leading components are equal exactly when their format names are |
| Layout.SaxsFieldsWithoutSlash | saxs_nxformat/nxfile_generator.py:208-225 | names without `/` give directory components without `/` |
| Layout.JoinSeparator | saxs_nxformat/nxfile_generator.py:210 | joining more than one field puts the separator in the text |
| Layout.SplitChars | saxs_nxformat/nxfile_generator.py:218 | every field of a split holds only characters of the text |
| Layout.JoinChars | saxs_nxformat/nxfile_generator.py:227-233 | a joined text holds only the separator and characters of its fields |
| Layout.BelowComponents | saxs_nxformat/nxfile_generator.py:227-236 | `Path / part` puts the components one after the other, `/`-separated |
| Layout.FourFieldsOf | package/auto_edf2h5.py:150-153 | the four `_`-fields of a settings name give the formats, the instrument and the date stripped of `.`, `t`, `x` |
| Layout.OlderReadsGuiName | package/auto_edf2h5.py:150-153 | a name the package's window writes is read back as `EDF` to `NXsas` with its instrument and stamp |
| Layout.OlderReadsConfigName | package/auto_edf2h5.py:150-153 | a name the configuration editor writes is read with the date still ending in `.json`, since `strip` removes only `.`, `t` and `x` |
| Layout.StripIsNotSuffixRemoval | package/auto_edf2h5.py:146-153 | `strip` takes a set of characters: it eats letters of the names too (`next.txt` gives `ne`) |
| Layout.SplitSlashed | package/auto_edf2h5.py:155-166 | the root followed by `/`-prefixed names splits into the root's fields and the names |
| Layout.OlderTree | edf2nxsas/nexus_file_generator.py:299-351 | `tree_structure_manager` of the older converters as a value; `OlderDirectories`, `OlderReadsGuiName` and `OlderReadsConfigName` state its outcomes |
| Layout.OlderDirectories | edf2nxsas/nexus_file_generator.py:330-342 | the older directories are the tree root, the instrument, configuration, sample, experiment and format directories, differing in the format alone |
| Layout.OlderFieldsWithoutSlash | edf2nxsas/nexus_file_generator.py:319-329 | names without `/` give directory components without `/` |
| Layout.StripChars | edf2nxsas/nexus_file_generator.py:322-329 | `strip` keeps only characters of its text |
| LegacyNexus.RangeOr | edf2nxsas/data_treatment.py:269-319 | a given range reaches the library as it is, element by element, and a missing one as the default pair |
| LegacyNexus.LegacyNexusFile.constructor | edf2nxsas/data_treatment.py:90-143 | the reader holds the open file, the parameters read from it and the geometry object |
| LegacyNexus.LegacyNexusFile.QSpace | edf2nxsas/data_treatment.py:180-222 | the geometry receives the mask reset and the rotation in that order; with `save` a raw position of rank below 2 raises `IndexError`, and otherwise the file ends as the class save of the stacked `(qx, qy)` mesh and the image |
| LegacyNexus.LegacyNexusFile.Caking | edf2nxsas/data_treatment.py:224-267 | the geometry receives only the fixed caking call, without a mask reset, and with `save` the file ends as the class save of the cake |
| LegacyNexus.LegacyNexusFile.RadialAverage | edf2nxsas/data_treatment.py:269-319 | the geometry receives the reset, the rotation and the radial call with the given or default ranges and 2000 points; with `save` the profile is stored by the class save |
| LegacyNexus.LegacyNexusFile.HorizontalIntegration | edf2nxsas/data_treatment.py:321-363 | the geometry receives the reset, the rotation and the horizontal strip call with its two ranges; with `save` the profile is stored |
| LegacyNexus.LegacyNexusFile.VerticalIntegration | edf2nxsas/data_treatment.py:365-407 | the geometry receives the reset, the rotation and the vertical strip call with its two ranges; with `save` the profile is stored |
| LegacyNexus.LegacyNexusFile.SaveData | edf2nxsas/data_treatment.py:409-435 | the file ends as the class save's step list, including its loss of `DATA` |
| LegacyNexus.LegacyNexusFile.DeleteData | edf2nxsas/data_treatment.py:437-450 | the file ends as the root-checked deletion's step list |
| LegacyNexus.OpenLegacy | edf2nxsas/data_treatment.py:90-143 | a file that cannot be read raises that error; otherwise the reader is built on the parameters read with the substring detector test |
| LegacyNexus.LegacyCallsAgree | edf2nxsas/data_treatment.py:224-319 | without arguments the older calls are those of the current class, and given ranges reach the library as the current class passes them |
| LegacyNexus.LegacyAcceptsMoreDetectorNames | edf2nxsas/data_treatment.py:113-118 | a name holding a known identifier among other text opens under the older test and fails the current exact one |
| Numerics.DetectVariation | saxs_nxformat/utils.py:372-373 | there is at most one index per step of the array |
| Numerics.DetectVariationSound | saxs_nxformat/utils.py:347-373 | every reported index is a step `k >= 1` whose rise exceeds the threshold, and the indices ascend |
| Numerics.DetectVariationComplete | saxs_nxformat/utils.py:347-373 | every step whose rise exceeds the threshold is reported |
| Numerics.DetectVariationExact | saxs_nxformat/utils.py:347-373 | the result is exactly the indices `k >= 1` where the step from `a[k-1]` to `a[k]` exceeds the threshold, in ascending order |
| Numerics.DetectVariationStep | saxs_nxformat/utils.py:372-373 | a profile that jumps once gives the single index of the jump |
| Numerics.MobileMean | saxs_nxformat/utils.py:376-385 | an even window raises `ValueError`, as do a negative one and empty data in `np.convolve`; otherwise there are `len(data) - n + 1` values, or `n - len(data) + 1` for a window longer than the data |
| Numerics.SumBounds | saxs_nxformat/utils.py:383-384 | a sum of `m` values between `lo` and `hi` lies between `m * lo` and `m * hi` |
| Numerics.SlidingWindow | saxs_nxformat/utils.py:384 | the next window's sum drops its first value and takes one more |
| Numerics.MobileMeanWithinWindow | saxs_nxformat/utils.py:383-384 | every smoothed value lies between the bounds of its window, so constant data is returned unchanged |
| Numerics.MobileMeanSlides | saxs_nxformat/utils.py:384 | consecutive smoothed values differ by the entering minus the leaving value over the window length |
| Numerics.MobileMeanLongWindow | saxs_nxformat/utils.py:384 | with a window longer than the data, every value times the window length is the sum of all the data: each value is `sum(data) / n`, not the mean of the data |
| OlderGenerator.OlderGenerateNexus | edf2nxsas/nexus_file_generator.py:198-275 | a missing sample name raises before the file is opened; otherwise the file ends as `OlderGenerateRun` and a success returns `<sample>_SAXS_<stamp>.h5` under the directory. The Python function returns `None`; this result stands for the file written |
| OlderGenerator.OlderPlaceArraysOn | edf2nxsas/nexus_file_generator.py:273-274 | the two replacements behave as the step list `OlderPlaceArrays` |
| OlderGenerator.OlderTreatment | edf2nxsas/nexus_file_generator.py:130-168 | the older `data_treatment` as a value: the grid of the current converter and the image, without a mask; `OlderTreatmentIsCurrentWithoutMask` relates the two |
| OlderGenerator.OlderTreatmentIsCurrentWithoutMask | edf2nxsas/nexus_file_generator.py:130-168 | the older treatment returns the same grid and image as the current one, and the current one then fails only where the mask does |
| OlderGenerator.OlderReplaceNeedsOld | edf2nxsas/nexus_file_generator.py:171-195 | the older `replace_h5_dataset` raises `KeyError` on a path with nothing there and leaves the file as it was |
| OlderGenerator.OlderPlacesArrays | edf2nxsas/nexus_file_generator.py:270-274 | a settings tree that made the two placeholder datasets gets the grid and the image in them, each keeping its attributes |
| OlderGenerator.OlderListAttributeRaises | edf2nxsas/nexus_file_generator.py:248-253 | as written, a list-valued attribute entry raises `TypeError`, as the list is used as a dictionary key |
| OlderGenerator.OlderTextAttributeSecondChar | edf2nxsas/nexus_file_generator.py:248-253 | as written, a text-valued attribute stores only its second character |
| OlderGenerator.CurrentAttributeRule | saxs_nxformat/nxfile_generator.py:124-130 | the current rule: a list gives its second element, a text is looked up in the header and kept as it is when absent |
| Nexus.ExtractFromH5 | saxs_nxformat/class_nexus_file.py:157-187 | `extract_from_h5` as a value: `f[path]` raises `KeyError` first, then a scalar dataset gives its value, an array its content, a present attribute its value, and any other attribute request `None`; a group read with `data_type="dataset"` yields `NotModelled` |
| Nexus.ReadParameters | saxs_nxformat/class_nexus_file.py:99-142 | the reads of `__init__` in program order, the first failing one raising; `ReadParametersFacts`, `SetupFacts` and `LoadedFacts` state what a successful read holds |
| Nexus.RMax | saxs_nxformat/class_nexus_file.py:365 | the default radius as written, from `max(qp)` and `max(qz)`; `RMaxCoversNonNegativeAxes` and `RMaxMissesNegativeAxis` state where it covers the plane |
| Nexus.ReadArray | saxs_nxformat/class_nexus_file.py:108-109 | `f[path][:]` succeeds exactly on an array dataset, with its whole content, and a missing path raises `KeyError` |
| Nexus.DetectorName | saxs_nxformat/class_nexus_file.py:122-126 | a detector is named exactly when its lower-cased name matches one of the two known identifiers, and then gets one of the two library names |
| Nexus.Geometry.constructor | saxs_nxformat/class_nexus_file.py:141-150 | the geometry object has received only its creation, with its q axes |
| Nexus.Geometry.Record | saxs_nxformat/class_nexus_file.py:151-152 | a call to the geometry object is appended to the calls it has received |
| Nexus.Or | saxs_nxformat/class_nexus_file.py:288-291 | `x if x is not None else d` |
| Nexus.OrInt | saxs_nxformat/class_nexus_file.py:292-293 | the same for the point counts |
| Nexus.NexusFile.constructor | saxs_nxformat/class_nexus_file.py:99-152 | the object holds the open file, the parameters read and the geometry object |
| Nexus.NexusFile.SaveResult | saxs_nxformat/class_nexus_file.py:232-239 | saving then recording the process behaves as `ResultOps`; the process is not recorded when the save raises |
| Nexus.NexusFile.ProcessQSpace | saxs_nxformat/class_nexus_file.py:189-239 | the geometry receives the mask reset and the rotation; with `save` the plan is performed: a position array of rank below 2 raises `IndexError` with the file untouched, otherwise the mesh is saved and the process recorded |
| Nexus.NexusFile.ProcessCaking | saxs_nxformat/class_nexus_file.py:241-330 | the geometry receives the caking call with the given or default ranges; with `save` the cake and its process group are written |
| Nexus.NexusFile.ProcessRadialAverage | saxs_nxformat/class_nexus_file.py:332-400 | the geometry receives the reset, the rotation and the radial call with given or default bounds; with `save` the profile and its process group are written |
| Nexus.NexusFile.ProcessAzimuthalAverage | saxs_nxformat/class_nexus_file.py:402-462 | the same for the azimuthal average, whose axis is `Chi` |
| Nexus.NexusFile.ProcessHorizontalIntegration | saxs_nxformat/class_nexus_file.py:464-518 | the geometry receives the reset, the rotation and the strip call with `q_per` the `qy` range and `q_par` the `qx` range; with `save` the profile and its process group are written |
| Nexus.NexusFile.ProcessVerticalIntegration | saxs_nxformat/class_nexus_file.py:520-578 | after the horizontal integration call the method always raises `NameError` on `qy_range` and never touches the file |
| Nexus.NexusFile.SaveData | saxs_nxformat/class_nexus_file.py:597-624 | the file ends as the class save's step list |
| Nexus.NexusFile.DeleteData | saxs_nxformat/class_nexus_file.py:626-639 | the file ends as the root-checked deletion's step list |
| Nexus.Open | saxs_nxformat/class_nexus_file.py:99-152 | a failing read or an unknown detector raises that error; otherwise the object holds the parameters read and a geometry that received its creation, the raw intensity and the stitching |
| Nexus.ReadParametersFacts | saxs_nxformat/class_nexus_file.py:103-111 | a successful read took both raw arrays as non-scalar datasets and the beam stop `[[0, 0]]` |
| Nexus.SetupFacts | saxs_nxformat/class_nexus_file.py:141-150 | the library is set up only for a known detector and a numeric distance, which it receives in millimetres, in transmission geometry |
| Nexus.LoadedFacts | saxs_nxformat/class_nexus_file.py:99-152 | a successful load is the parameters read and the setup built from them |
| Nexus.UnknownDetectorRaises | saxs_nxformat/class_nexus_file.py:122-148 | every parameter read but an unknown detector: the load raises `KeyError("detector name")` and the geometry is never built |
| Nexus.ExactMatchAgreesWithSubstring | saxs_nxformat/class_nexus_file.py:122-126 | a name the exact comparison recognises gets the same library name under the older substring test |
| Nexus.SubstringAcceptsDecoratedName | edf2nxsas/data_treatment.py:113-118 | the substring test also accepts a decorated name the exact comparison rejects |
| Nexus.CakingDefaults | saxs_nxformat/class_nexus_file.py:277-293 | the caking defaults are a full turn in azimuth and the span of `qz` in radius, which holds every `qz` |
| Nexus.AveragingDefaults | saxs_nxformat/class_nexus_file.py:361-381 | the averaging defaults are a full turn, zero up to the norm of the largest `qp` and `qz`, and 2000 points; given values pass through |
| Nexus.RMaxCoversNonNegativeAxes | saxs_nxformat/class_nexus_file.py:365 | when no axis value is negative the default radius reaches every point of the q plane |
| Nexus.RMaxMissesNegativeAxis | saxs_nxformat/class_nexus_file.py:365 | with `qp = [-2, 1]` and `qz = [1]` the point `(-2, 1)` lies beyond the default radius |
| Nexus.Magnitudes | saxs_nxformat/class_nexus_file.py:365 | each magnitude is non-negative and equals the value or its negation |
| Nexus.CoveringRMaxCovers | saxs_nxformat/class_nexus_file.py:365 | a default radius built from the largest magnitudes reaches every point of the q plane |
| Nexus.QSpaceMeshCorners | saxs_nxformat/class_nexus_file.py:226-231 | the q-space mesh has the raw position's shape, with `(first qp, last qz)` at the top-left and `(last qp, first qz)` at the bottom-right |
| Nexus.QSpacePlanShape | saxs_nxformat/class_nexus_file.py:224-239 | below rank 2 the plan fails with `IndexError`; otherwise it saves the mesh and records the q-space process |
| Nxsas.Find | nexus_generation.py:113 | `d[key]` is found exactly when some entry has the key, and is that entry's value |
| Nxsas.Stringly | nexus_generation.py:102-103 | storing string attributes keeps exactly their keys |
| Nxsas.Content | nexus_generation.py:124-140 | the detector data key writes the image; a `None` value without a `type` attribute raises `KeyError("type")`; any other key writes its value or its type's default |
| Nxsas.OutputName | nexus_generation.py:89-95 | a missing sample name raises `KeyError` on its key, then a missing experiment type on its own; otherwise `<sample>_<type>_<stamp>.h5` in the output directory |
| Nxsas.AddAttrsOn | nexus_generation.py:143-144 | the attribute loop on the file object behaves as `AddAttrs` |
| Nxsas.BuildStructure | nexus_generation.py:98-103 | the structure loop on the file object behaves as `Structure` |
| Nxsas.Write | nexus_generation.py:119-144 | writing one parameter as a step function: the group required, the dataset created (none for `/entry/data/data`, the image for the detector data) and the attributes set; `WriteLinkGroup` and `WriteDataset` state the two cases |
| Nxsas.WriteEntry | nexus_generation.py:119-144 | writing one parameter on the file object behaves as `Write` |
| Nxsas.WriteOne | nexus_generation.py:108-144 | one iteration behaves as `Step`: the entry as left in the caller's dictionary and the file after it |
| Nxsas.WriteParams | nexus_generation.py:108-144 | the parameter loop behaves as `ParamPhase`, including the in-place units updates of the caller's dictionary |
| Nxsas.GenerateNxsasFile | nexus_generation.py:73-144 | the whole call behaves as `GenerateSpec`: the name, then the structure, the soft link and the parameters. The Python function returns `None`; the name the model returns stands for the file written |
| Nxsas.StructureAfterError | nexus_generation.py:98-103 | once the structure loop has stopped, the later groups are never reached |
| Nxsas.PhaseNext | nexus_generation.py:108-144 | one more iteration extends the loop by the step of the next entry |
| Nxsas.PhaseAfterError | nexus_generation.py:108-144 | once the parameter loop has stopped, the remaining entries stay as given |
| Nxsas.GroupStepAdds | nexus_generation.py:99-103 | a new group below an existing one is created with exactly its listed attributes |
| Nxsas.StructureExact | nexus_generation.py:98-103 | a layered structure table written into an empty file gives exactly its groups, each with exactly its listed attributes |
| Nxsas.LayeredByPaths | package/nexus_format.py:20-39 | groups with the paths of `dictStructureNXsas` are layered, and `/entry/data/data` is not among them |
| Nxsas.StructureOfTable | package/nexus_format.py:20-39 | the structure of `dictStructureNXsas` is every listed group with exactly its attributes and nothing else, leaving `/entry/data/data` free for the soft link |
| Nxsas.RequireKeeps | nexus_generation.py:120-121 | a successful `require_group` keeps the file well-formed and every node, and leaves a group reachable at the path |
| Nxsas.AddAttrsKeeps | nexus_generation.py:143-144 | setting attributes changes the attributes of that one node and nothing else |
| Nxsas.Force | nexus_generation.py:111-117 | the units forcing of one parameter as a value; `ForceShape` and `ForceInPlace` state what it does |
| Nxsas.ForceShape | nexus_generation.py:111-117 | an entry with `units` gets the unit of `dictParamNXsas` for its key, keeping everything else; an entry without `units` is written unchanged |
| Nxsas.ForceInPlace | nexus_generation.py:111-115 | a value already in the forced unit is written unchanged, outside angles |
| Nxsas.StepKeeps | nexus_generation.py:108-144 | one iteration keeps the file well-formed, the entry's key and name, and every node other than its target; datasets and links are never changed |
| Nxsas.WriteLinkGroup | nexus_generation.py:124-125 | `/entry/data/data` writes no dataset: the group above it has the entry's attributes added |
| Nxsas.WriteDataset | nexus_generation.py:126-144 | any other key writes a new dataset holding the content and exactly the entry's attributes, beside the existing nodes |
| Nxsas.PhaseShape | nexus_generation.py:108-117 | the loop hands back one entry per entry, in order, each left as it was or forced, and all forced when nothing raised |
| Nxsas.StepEntry | nexus_generation.py:111-117 | one iteration leaves its entry as it was or forced, and forced when it did not raise |
| Nxsas.PhaseKeeps | nexus_generation.py:108-144 | a successful loop keeps the file well-formed and every dataset and link already in it |
| Nxsas.PhaseWrites | nexus_generation.py:119-144 | after a successful loop every key but `/entry/data/data` has its dataset, holding the content of the forced entry and exactly its attributes |
| Nxsas.LinkResolves | nexus_generation.py:105-127 | when `/entry/data/data` links to the detector data and that entry is written, the link resolves to the image dataset |
| Nxsas.Skeleton | nexus_generation.py:96-105 | before the parameter loop the file holds the structure and the soft link |
| Nxsas.GenerateLinksDetector | nexus_generation.py:96-144 | in a file written without an exception, `/entry/data/data` resolves to the image with the detector entry's forced attributes |
| Nxsas.OutputNameFields | nexus_generation.py:89-95 | with fields free of `_`, the file name splits back into sample, experiment type and stamp |
| Reload.GroupOfGet | package/gui_modify_h5.py:341-342 | a child counts as a group (`Reload.GroupOf`) exactly when h5py hands it back as a group, that is, a group or a soft link to one, and the group the recursion enters is the object h5py hands back |
| Reload.WalkThrough | package/gui_modify_h5.py:334-342 | walking one path of names and then another, once the first ends on a group, is walking the two joined |
| Reload.WalkAlong | package/gui_modify_h5.py:334-342 | in a well-formed file, the walk along a path of the file ends on that path, since all its proper prefixes are groups |
| Reload.WalkSlashless | package/gui_modify_h5.py:335 | the names a walk takes are names of the file, so none holds a `/` |
| Reload.Reach | package/gui_modify_h5.py:333-342 | every path of names that `_load_datasets` records below a group leads from it to a dataset |
| Reload.ReachFrom | package/gui_modify_h5.py:334-342 | every path reached through the named children leads to a dataset |
| Reload.ReachFromDataset | package/gui_modify_h5.py:336-340 | a dataset child is reached by its own name alone |
| Reload.ReachFromGroup | package/gui_modify_h5.py:341-342 | a child that is a group or a soft link to one reaches, behind its name, what the group reaches |
| Reload.ReachFromNothing | package/gui_modify_h5.py:335-342 | a child that is neither a dataset nor a group after resolving, such as a dangling link, reaches nothing |
| Reload.ReachFromStep | package/gui_modify_h5.py:334 | reaching through one more child adds exactly what that child reaches |
| Reload.ReachComplete | package/gui_modify_h5.py:333-342 | every path of names that leads from a group to a dataset, through soft links to groups as well, is reached |
| Reload.CurrentPath | package/gui_modify_h5.py:335 | `f"{path}/{key}"` is the text of the names walked so far plus the child's name, and `"/key"` at the root |
| Reload.PathTextInjective | package/gui_modify_h5.py:335 | distinct paths with names free of `/` have distinct texts |
| Reload.TextsDistinct | package/gui_modify_h5.py:335-340 | the paths reached from a group all have distinct texts, so their records never clash |
| Reload.RecordsHas | package/gui_modify_h5.py:336-340 | each reached path is recorded under its text with the data of the dataset it leads to |
| Reload.RecordsUnion | package/gui_modify_h5.py:334-342 | the records of two sets of reached paths are the union of their records |
| Reload.RecordsDataset | package/gui_modify_h5.py:336-340 | a dataset child records exactly its data under the text of its path |
| Reload.RecordsGroup | package/gui_modify_h5.py:341-342 | a child that leads to a group records what loading that group under the child's path records |
| Reload.RecordsShift | package/gui_modify_h5.py:341-342 | paths reached from the target group, behind the child's path, record what the same paths behind the child's name record from the parent |
| Reload.DatasetIndex.constructor | package/gui_modify_h5.py:331 | the dictionary starts empty |
| Reload.DatasetIndex.LoadDatasets | package/gui_modify_h5.py:333-342 | the recursive `_load_datasets` adds to the dictionary exactly the records of every path of names it reaches, links to groups included, and later records of a text replace earlier ones |
| Reload.DatasetIndex.LoadChild | package/gui_modify_h5.py:335-342 | one child adds what it reaches: a dataset is recorded under `f"{path}/{key}"`, a group or a soft link to a group is loaded in turn under that path, and anything else is passed over |
| Reload.GroupChild | package/gui_modify_h5.py:341-342 | a child h5py hands back as a group leads to a group of lower rank, and records what loading that group under the child's path records |
| Reload.OtherChild | package/gui_modify_h5.py:335-342 | a child h5py hands back as neither a dataset nor a group records nothing |
| Reload.ChildrenNone | package/gui_modify_h5.py:333-334 | a group whose children are not yet visited has recorded nothing |
| Reload.ChildrenStep | package/gui_modify_h5.py:334-342 | loading one more child adds what that child records |
| Reload.LinkFreeRanked | package/gui_modify_h5.py:341-342 | a file without soft links to groups meets the no-cycle requirement, ranked by the number of paths below each group |
| Reload.UnderShrinks | package/gui_modify_h5.py:341-342 | a child group has fewer paths below it than its parent |
| Reload.FillWidgets | package/gui_modify_h5.py:346-367 | each widget is filled from the key of the last label before it, one outcome per widget |
| Reload.Autofill | package/gui_modify_h5.py:327-367 | the datasets the walk reaches are loaded, then every widget is filled from them under the key of the last label before it |
| Reload.Loaded | package/gui_modify_h5.py:333-345 | what `_load_datasets(file_h5)` records for the whole file; `LoadedRecordsReached` and `LoadedOnlyReached` characterise it |
| Reload.LoadedRecordsReached | package/gui_modify_h5.py:333-345 | every path of names that leads from the root to a dataset is recorded under its text with that dataset's data |
| Reload.LoadedOnlyReached | package/gui_modify_h5.py:333-345 | every recorded key is the text of a path of names that leads from the root to a dataset, and holds that dataset's data |
| Reload.LoadedRecordsDatasets | package/gui_modify_h5.py:333-345 | every dataset of the file, a soft link to a dataset included, is recorded under its own path with its data |
| Reload.LoadedRecordsLinkedGroup | package/gui_modify_h5.py:333-345 | a soft link to a group is entered: each dataset of the target group is recorded again under the link's path |
| Reload.EntryShowsDataset | package/gui_modify_h5.py:351-355 | a value entry under the label of a path that leads to a dataset, through soft links to groups as well, shows that dataset's data |
| Reload.EntryShowsNone | package/gui_modify_h5.py:356-359 | a value entry under a label that no path leading to a dataset has shows `None` |
| Reload.UnitBoxShowsDeclared | package/gui_modify_h5.py:361-365 | a unit box under a parameter's label shows the unit that parameter declares, or nothing when it declares none |
| Reload.UnitBoxWithoutParameter | package/gui_modify_h5.py:366-367 | a unit box under a label that is no parameter's key shows nothing |
| SettingsSave.SettingsWindow.constructor | package/gui_edf2h5.py:633 | the window starts with an empty match |
| SettingsSave.SettingsWindow.SaveSettings | package/gui_edf2h5.py:797-843 | a click ends in the outcome and leaves the match that `SaveSpec` gives for the match the window kept, for either reading of the code |
| SettingsSave.SaveAfterStop | package/gui_edf2h5.py:804-822 | once the loop stops, later widgets change nothing |
| SettingsSave.StopKinds | package/gui_edf2h5.py:804-822 | the loop stops only on a key used twice, which empties the match, or on an exception |
| SettingsSave.RowsMatch | package/gui_edf2h5.py:804-822 | the match the rows ask for holds exactly the non-blank keys of the rows |
| SettingsSave.RowsMatchLookup | package/gui_edf2h5.py:816-822 | with distinct keys each non-blank key is matched to its own row's label and unit |
| SettingsSave.RowStep | package/gui_edf2h5.py:800-822 | the loop over the window goes row after row |
| SettingsSave.RowVisitShape | package/gui_edf2h5.py:804-822 | a row stops the loop exactly when its key is already matched, and otherwise matches a non-blank key to the row's label and unit |
| SettingsSave.DistinctSnoc | package/gui_edf2h5.py:807-817 | keys stay distinct with one more row exactly when its key is blank or new |
| SettingsSave.RowsScan | package/gui_edf2h5.py:798-822 | read as intended, a fresh loop over the rows runs through exactly when their keys are distinct, then holds exactly their match, and otherwise stops on a key used twice |
| SettingsSave.SavedFile | package/gui_edf2h5.py:824-838 | a saved file means an instrument name without `_` and a successful write; its name reads back as `EDF` to `NXsas` with that instrument and stamp, and the match is emptied |
| SettingsSave.UnderscoreKeeps | package/gui_edf2h5.py:827-831 | an instrument name with `_` refuses the save after the loop and the window keeps the match the loop built |
| SettingsSave.IntendedSavesRows | package/gui_edf2h5.py:797-838 | read as intended, distinct keys save exactly the rows' match under `settings_EDF2NXsas_<name>_<stamp>.txt`, whatever an earlier click left |
| SettingsSave.IntendedReportsDuplicates | package/gui_edf2h5.py:807-813 | read as intended, a key chosen on two rows is reported as used twice and the match emptied |
| SettingsSave.BlankRowRaises | package/gui_edf2h5.py:814-822 | as written, a single blank row raises `KeyError` at its unit box |
| SettingsSave.AsWrittenBlankRowRaises | package/gui_edf2h5.py:814-822 | as written, the first blank row of a window whose earlier keys are distinct raises `KeyError`, whatever follows |
| SettingsSave.BlankRowStops | package/gui_edf2h5.py:814-822 | as written, a blank row raises at its unit box unless its key is matched |
| SettingsSave.RetryAfterUnderscore | package/gui_edf2h5.py:807-831 | as written, a click refused for an underscore leaves the match, so the next click reports the first row's key as used twice instead of saving |
| SettingsSave.FirstRowTwice | package/gui_edf2h5.py:807-813 | a first row whose key the window already holds stops the loop at once with an empty match |
| SettingsSave.IntendedRetrySaves | package/gui_edf2h5.py:797-838 | read as intended, the same retry with a good name saves the rows |
| GroupNames.Ascending | saxs_nxformat/data_processing.py:21 | `keys()` lists every link of a group once, in ascending name order |
| GroupNames.FirstAppearances | saxs_nxformat/data_processing.py:22-23 | the guard `name not in groups` keeps exactly the names met, nothing more |
| GroupNames.FirstAppearancesOrder | saxs_nxformat/data_processing.py:22-23 | the names kept are all different and come in the order in which each first appeared |
| GroupNames.FirstAppearancesOfDistinct | saxs_nxformat/data_processing.py:22-23 | names that are already all different pass the guard unchanged |
| GroupNames.AddDataGroups | saxs_nxformat/data_processing.py:21-23 | the inner loop over the links of `/ENTRY` adds to the groups found so far the new `DATA` groups of the file, or raises for the first link that leads nowhere |
| GroupNames.GetGroupNames | saxs_nxformat/data_processing.py:16-25 | the loops return what `GroupNames` gives for the list of files |
| GroupNames.AmongExactly | saxs_nxformat/data_processing.py:21-23 | when the inner loop runs through, it keeps exactly the links that lead to a group and whose name holds `DATA`, and every link led somewhere |
| GroupNames.AmongAscending | saxs_nxformat/data_processing.py:21-23 | links met in ascending name order give `DATA` groups in ascending name order |
| GroupNames.AmongFails | saxs_nxformat/data_processing.py:21-23 | the inner loop raises a `KeyError` naming the first link that leads nowhere, every earlier link having led somewhere |
| GroupNames.FileExactly | saxs_nxformat/data_processing.py:18-23 | one file contributes exactly its `DATA` groups of `/ENTRY`, in ascending name order |
| GroupNames.FileFailsIff | saxs_nxformat/data_processing.py:18-23 | one file raises exactly when `/ENTRY` is missing or is not a group, or one of its links leads nowhere |
| GroupNames.CollectExactly | saxs_nxformat/data_processing.py:17-23 | when no file raises, the names met are exactly those the files contribute |
| GroupNames.CollectFails | saxs_nxformat/data_processing.py:17-23 | a failure is the error of the first file that raises |
| GroupNames.AllExactly | saxs_nxformat/data_processing.py:17-23 | with every file read, the names met are the `DATA` groups of all the files |
| GroupNames.AllFails | saxs_nxformat/data_processing.py:17-23 | a list that raises reports the error of its first file that raises, all earlier files having been read |
| GroupNames.GroupNames | saxs_nxformat/data_processing.py:15-25 | `get_group_names` as a value: the `DATA` groups of every file, in first-appearance order; `GroupNamesExactly` and `GroupNamesFailIff` state it |
| GroupNames.GroupNamesExactly | saxs_nxformat/data_processing.py:16-25 | the names returned are the `DATA` groups of `/ENTRY` over all the files, each once |
| GroupNames.GroupNamesFailIff | saxs_nxformat/data_processing.py:16-25 | the call raises if and only if one of the files raises |
| GroupNames.OneFile | saxs_nxformat/data_processing.py:16-25 | for one file the result is its `DATA` groups, in ascending name order |

## Left out

- `SMI_beamline`: stitching, caking, averaging and the integrations are not part of this model. The geometry object is a log of the calls made to it. Its `qp` and `qz` axes (non-empty) and its output arrays are given, and the sums checked by the process tests depend on them.
- Opening, closing and repacking files (`h5py.File`, `fabio`, `repack_hdf5`, `close`) are file I/O. A file is given as its tree, and a failure to open one is not modelled.
- Gzip compression and the storage layout of datasets do not change what the code reads back.
- A soft link is followed one level deep: a link to a link reads as dangling. This is all that `/entry/data/data` needs.
- Reload.DatasetIndex.LoadDatasets: requires the soft links to groups to form no cycle, witnessed by a rank that falls from each group to every group one of its children leads to (`Reload.Ranked`). With a cyclic link the source recurses until Python raises `RecursionError`, which is not modelled.
- Reload.DatasetIndex.LoadChild, Reload.Autofill and the `Reload.Loaded…`/`Reload.Entry…` lemmas carry the same no-cycle requirement. `Reload.LinkFreeRanked` shows that every file without soft links to groups meets it.
- Text.IsDigit, Text.LowerChar, Text.UpperChar and Text.IsSpace are ASCII only, whereas Python's `\d`, `str.lower`, `str.upper`, `strip()`, `int()` and `float()` follow Unicode: `int("١٢") == 12` and `"É".lower() == "é"` are not modelled. Parsing.PyInt, Parsing.PyFloat, Parsing.TypedValue, Parsing.RawValue and Parsing.LoweredValue inherit this restriction.
- Nexus.ExtractFromH5 reads a string dataset back as `str`. With h5py 3 a variable-length string reads back as `bytes`, and `str()` of it is `"b'…'"`. The exact detector test (Nexus.DetectorName with `Exact`) would then never match and construction would raise `KeyError`, while the substring test of the older reader still matches. The repository fixes no h5py version, so the model keeps the `str` reading.
- Nexus.ExtractFromH5: a group read with `data_type="dataset"` yields the error `NotModelled("np.shape of a group")`. What `np.shape` makes of an `h5py.Group` is not modelled.
- Nexus.ReadParameters: a wavelength, yaw or roll dataset that holds an array, rather than a scalar, stops the read with `NotModelled("arithmetic on an array")`, via Nexus.Times and Nexus.Negate. NumPy would compute `wavelength * 1e-9`, `-yaw` and `-roll` element by element and hand the arrays on to the library, which is not part of this model.
- Generator.UnitName, used by Generator.Fill for a dataset's `@units` pair: a unit in the pair that is not a JSON string yields `NotModelled("a unit that is not a string")`. What `convert` does with a number, a list or `null` as a unit name is not modelled.
- H5.Path keeps each name as one component, whatever it holds. h5py would split a name holding `/` into nested groups. Only the Reload lemmas rely on names free of `/`, and they require it (`Reload.Slashless`).
- H5.PutAttr and H5.DropAttr raise `KeyError` when the path itself is a soft link or passes through one, where h5py resolves the link and changes the target's attributes. The procedures modelled set attributes on nodes they have just created or on the groups of the NeXus layout, so only a given file holding a soft link at one of those paths meets this difference.
- Generator.ReadNumber: a metadata dataset holding an array yields the error `NotModelled("arithmetic on an array")`. NumPy would broadcast the grid arithmetic over the array, and the model does not follow that.
- Directory listing and creation (`os.listdir`, `os.walk`, `mkdir`, `makedirs`) are I/O. The listing is a parameter, and so is whether creating a directory is permitted.
- Every tkinter window, message box and scrolled frame is left out, as are saxs_nxformat/launcher.py and saxs_nxformat/main_manual_treatment.py. A window is the sequence of its widgets, each reduced to the text the code reads from it. What a message box displays is left out; that one is shown is kept.
- The threads and polling loops (`auto_generate`, `start_thread`, `STOP_THREAD`, `tracemalloc`) are concurrency.
- The matplotlib display branches are left out, as are `process_display` and the NaN and percentile handling.
- The reflection-based process registry of saxs_nxformat/data_processing.py is left out: it is `inspect` introspection of the class.
- saxs_nxformat/__init__.py is left out: it detects the desktop with `os.popen`.
- The API exercised only by the tests is left out: a multi-file `NexusFile`, `get_raw_data`, `process_absolute_intensity`, `process_delete_data`, `nexus_close` and `extract_smi_param`. No code for them is part of this model.
- PyValues.Json has no case for a JSON float: the settings and configuration trees are taken to hold integers, strings, booleans, `null`, lists and objects only.
- IEEE floating point is replaced by exact reals:
  - the round trips of `convert` are exact;
  - `np.sqrt` is kept as the pair of values under it (`Nexus.Bound`);
  - `str()` of a float or an array is not modelled, and yields the error `NotModelled`.
- The clock is a parameter: every time stamp is given as a string.
- `DICT_UNIT` and the unit table of the older generator are not part of this model, so the unit table is a parameter. Only the table of package/nexus_format.py is a constant.
- Reading JSON and EDF, and the `str()`/`literal_eval` round trip of the package settings file, are not modelled. Headers, settings trees and images are given as values.
- The order in which h5py lists the links of a group is taken as ascending code-point order of their names (`GroupNames.Ascending`). This is the order of the HDF5 name index for ASCII names.
- The dead `"perm error"` check of saxs_nxformat/nxfile_generator.py:292 is left out.
- generate_dummy.py and tests/utils.py are left out: they only generate synthetic EDF files.
- Nexus.NexusFile.ProcessCaking and the other `process_*` methods do not model the library's outputs: each result array is given, so their contracts state the call made and the write-back, not the numbers.
- Forms.CheckCompletion returns which field stopped the completion, and not the message the window shows.

## Findings

| source | as written | input that shows it | evidently intended | confidence | as-written member | corrected member |
|---|---|---|---|---|---|---|
| saxs_nxformat/class_nexus_file.py:635-639 | `delete_data` tests `group_name in self.file` at the root but deletes `/ENTRY/<name>` | a file whose only `Q` group is `/ENTRY/Q`: `delete_data("q")` leaves it in place | delete `/ENTRY/<name>` when it exists, as utils.delete_data does | high, not executed | Containers.RootCheckCounterexample | Containers.DeleteDataRemovesGroup |
| saxs_nxformat/class_nexus_file.py:365 | the default `r_max` is `sqrt(max(qp)**2 + max(qz)**2)` | `qp = [-2.0, 1.0]`, `qz = [1.0]`: the point `(-2, 1)` lies beyond `r_max` | a radius that covers every `(qp, qz)` pair, from the largest magnitudes | medium, not executed | Nexus.RMaxMissesNegativeAxis | Nexus.CoveringRMaxCovers |
| saxs_nxformat/nxfile_generator.py:154-156 | `generate_nexus` calls `replace_h5_dataset` with three arguments where four are required | any image and settings: the call raises `TypeError` before `R`, `I` and `mask` are placed | replace `R`, `I` and `mask` under `/ENTRY/DATA`, keeping their attributes | high, not executed | Generator.GenerateAlwaysRaises | Generator.CorrectedPlacesArrays |
| saxs_nxformat/nxfile_generator.py:51-52 | the pixel axis is `linspace(-bc, n - bc, n)`, whose step is `n / (n - 1)` pixels | centre `0`, 2 pixels of size `1`: `[0.0, 2.0]` | a step of one pixel, `[0.0, 1.0]` | medium, not executed | Generator.PixelAxisOvershoots | Generator.CentredAxisSpacing |
| package/gui_edf2h5.py:815-822 | a row whose key is blank `continue`s past its key box, then its unit box reads `dict_match[""]` | one row `Wavelength`, blank key, blank unit: `KeyError: ''` | skip the blank row's unit box too | high, not executed | SettingsSave.AsWrittenBlankRowRaises | SettingsSave.IntendedSavesRows |
| package/gui_edf2h5.py:827-831 | the refusal of an instrument name holding `_` returns without emptying `dict_match` | save with name `my_inst`, then again with `inst`: the second click reports the first key as used twice | each click starts from an empty match | high, not executed | SettingsSave.RetryAfterUnderscore | SettingsSave.IntendedRetrySaves |
| edf2nxsas/nexus_file_generator.py:248-253 | the attribute branch indexes the header with a list value, and takes character 1 of a text value | an attribute whose `value` is a list raises `TypeError: unhashable type: 'list'` | the rule of saxs_nxformat/nxfile_generator.py:124-130: element 1 of a list, the header entry or the text itself | medium, not executed | OlderGenerator.OlderListAttributeRaises | OlderGenerator.CurrentAttributeRule |
