# PatcherUtils of the DualBootPatcher Android application, in Dafny

The Android application of DualBootPatcher calls an external Python patcher
through `PatcherUtils`. The patcher ships as an archive among the application's
assets. This project models the deterministic layer of that class:

- **Argument vectors.** `patchFile` turns a request bundle into an argument
  list through a decision tree: base arguments, `--unsupported`, then either a
  preset or the autopatcher, patch and boot-image options, and finally
  `--nodevicecheck`. `isFileSupported` and `updateSyncdaemon` build smaller
  lists. `ParsePatchArgv` is a positional reading of the list `patchFile`
  builds (each flag where `patchFile` places it, each value in the slot
  after its flag), and every list the builder produces is proved to read
  back to the meaning of the request.
- **Marker protocol.** `PatcherOutputFilter` reads `EXITFAIL:` and
  `EXITSUCCESS:` lines on standard error into a message and a failed flag. The
  failure marker is tested first, every occurrence of the marker is removed
  from the message, and the last marker line wins. When no marker line was
  seen, the result is an empty message and `failed = true`.
- **Full-output capture.** `FullOutputListener` keeps the standard-output
  lines, each followed by a line separator. `isFileSupported` answers whether
  that text starts with `supported`.
- **Result assembly.** The new file name is `filename.replace(".zip",
  "_" + partConfig + ".zip")`. This uses Java's replace-all semantics, and a
  null partition configuration is spelled `null`.
- **Installation bookkeeping.** This covers:
  - the names derived from the version (`DualBootPatcherAndroid-<v>.tar.xz`
    and `DualBootPatcherAndroid-<v>`, where `<v>` is the version name up to
    its first `-`);
  - the memoised static fields, including `mInfo`, which is set only after a
    successful load;
  - the clean-up and extraction of `extractPatcher` over an abstract
    directory tree.

Files:

- `wrappers.dfy`: `Option`.
- `java_strings.dfy`: `contains`, `startsWith`, `replace` and `split` as
  `java.lang.String` defines them, with their lemmas.
- `patch_command.dfy`: the request, the argument lists, their positional
  reading and the builders.
- `patcher_output.dfy`: the marker filter, the output listener and the patch
  result.
- `patcher_utils.dfy`:
  - the version-derived names;
  - the directory model;
  - `PatcherRuntime`, a class that holds the static fields together with the
    cache and files directories;
  - the four entry points as methods.

A Java `String` reference is `Option<string>`, where `None` is `null`. An
argument list is a `seq<Option<string>>`, because `ArrayList.add(null)` keeps
the null. An absent boolean in a bundle reads as `false`, as
`Bundle.getBoolean` does.

## Model

| member | source | states |
|---|---|---|
| PatchCommand.BuildPatchArgs | Android_GUI/src/com/github/chenxiaolong/dualbootpatcher/patcher/PatcherUtils.java:156-231 | The `args.add` sequence yields exactly the specified argument list, and the positional reading of that list gives back the request's meaning (target, unsupported selection, device check). |
| PatchCommand.AddTargetArgs | Android_GUI/src/com/github/chenxiaolong/dualbootpatcher/patcher/PatcherUtils.java:162-174 | Appends the filename, then `--device` and the device, then `--partconfig` and the partition configuration, nulls included. |
| PatchCommand.AddSelectionArgs | Android_GUI/src/com/github/chenxiaolong/dualbootpatcher/patcher/PatcherUtils.java:181-226 | Appends `--preset <path>` when a preset is given, otherwise the autopatcher, patch and boot-image options. |
| PatchCommand.AddBootImageArgs | Android_GUI/src/com/github/chenxiaolong/dualbootpatcher/patcher/PatcherUtils.java:202-225 | Appends `--nobootimage`, or `--hasbootimage --bootimage <image or auto> --ramdisk <ramdisk>` followed by `--patchedinit <init>` when init is non-null. |
| PatchCommand.AddDeviceCheckArgs | Android_GUI/src/com/github/chenxiaolong/dualbootpatcher/patcher/PatcherUtils.java:228-231 | Appends `--nodevicecheck` exactly when the device check is off. |
| PatchCommand.PatchArgvRoundTrip | Android_GUI/src/com/github/chenxiaolong/dualbootpatcher/patcher/PatcherUtils.java:156-231 | For every request, the positional reading of the patch argument list gives back the request's options. Under that reading a value is never taken for a flag, because it sits in a value slot. |
| PatchCommand.PatchArgvDeterminesOptions | Android_GUI/src/com/github/chenxiaolong/dualbootpatcher/patcher/PatcherUtils.java:156-231 | Two requests with the same argument list mean the same options, so the list loses nothing the script reads. |
| PatchCommand.PatchArgvShapes | Android_GUI/src/com/github/chenxiaolong/dualbootpatcher/patcher/PatcherUtils.java:156-231 | A supported file gets exactly the nine base arguments. An unsupported file with a preset gets the base, `--unsupported --preset <path>` and, only when the check is off, `--nodevicecheck`. When the check is off on an unsupported file, `--nodevicecheck` is the last argument. |
| PatchCommand.ManualSelectionOptions | Android_GUI/src/com/github/chenxiaolong/dualbootpatcher/patcher/PatcherUtils.java:186-231 | Without a preset, each of these holds exactly when the request asks for it: `--autopatcher`, `--patch`, `--nobootimage`, `--patchedinit`, a disabled device check. The boot image is the given one or `auto`, and the ramdisk is carried over. |
| PatchCommand.SelectionRoundTrip | Android_GUI/src/com/github/chenxiaolong/dualbootpatcher/patcher/PatcherUtils.java:181-231 | The unsupported tail of the argument list parses back to the selection and the device check. |
| PatchCommand.ManualRoundTrip | Android_GUI/src/com/github/chenxiaolong/dualbootpatcher/patcher/PatcherUtils.java:186-231 | The preset-free tail parses back to the autopatcher, the patch, the boot image and the device check. |
| PatchCommand.ManualPairsRoundTrip | Android_GUI/src/com/github/chenxiaolong/dualbootpatcher/patcher/PatcherUtils.java:186-200 | The optional `--autopatcher` and `--patch` pairs, in that order, parse back to the requested values. |
| PatchCommand.BootImageRoundTrip | Android_GUI/src/com/github/chenxiaolong/dualbootpatcher/patcher/PatcherUtils.java:202-225 | The boot-image options parse back to the boot image, with `auto` standing for a null image. |
| PatchCommand.DeviceCheckRoundTrip | Android_GUI/src/com/github/chenxiaolong/dualbootpatcher/patcher/PatcherUtils.java:228-231 | The optional `--nodevicecheck` parses back to the device-check flag. |
| PatchCommand.BuildSupportArgs | Android_GUI/src/com/github/chenxiaolong/dualbootpatcher/patcher/PatcherUtils.java:304-322 | The support query has nine arguments, with `--is-supported` fourth and the filename, device and partition configuration at positions 4, 6 and 8. |
| PatchCommand.SupportArgvMirrorsPatchArgv | Android_GUI/src/com/github/chenxiaolong/dualbootpatcher/patcher/PatcherUtils.java:304-322 | The support query is the patch command's first nine arguments with `--noquestions` replaced by `--is-supported`. |
| PatchCommand.BuildSyncdaemonArgs | Android_GUI/src/com/github/chenxiaolong/dualbootpatcher/patcher/PatcherUtils.java:276-280 | The update command is the interpreter, `-B`, `scripts/updatesyncdaemon.py` and the boot image. |
| JavaStrings.ContainsAt | Android_GUI/src/com/github/chenxiaolong/dualbootpatcher/patcher/PatcherUtils.java:136 | `contains` holds exactly when the target occurs at some index. |
| JavaStrings.ReplaceAbsent | Android_GUI/src/com/github/chenxiaolong/dualbootpatcher/patcher/PatcherUtils.java:255 | `replace` leaves a string without the target unchanged. |
| JavaStrings.ReplaceLeading | Android_GUI/src/com/github/chenxiaolong/dualbootpatcher/patcher/PatcherUtils.java:137 | An occurrence at the front is replaced, and the scan resumes after it. |
| JavaStrings.ReplaceAfterClean | Android_GUI/src/com/github/chenxiaolong/dualbootpatcher/patcher/PatcherUtils.java:255 | When the target's first character does not recur in it, the first occurrence after target-free text is the one replaced. |
| JavaStrings.SplitFirstField | Android_GUI/src/com/github/chenxiaolong/dualbootpatcher/patcher/PatcherUtils.java:78 | `split` gives no field exactly for a non-empty run of separators. Otherwise its first field is the text before the first separator. |
| JavaStrings.TakeUntilPrefix | Android_GUI/src/com/github/chenxiaolong/dualbootpatcher/patcher/PatcherUtils.java:78 | The text before the first separator is a separator-free prefix, followed by a separator or by nothing. |
| PatcherOutput.OnStderrLine | Android_GUI/src/com/github/chenxiaolong/dualbootpatcher/patcher/PatcherUtils.java:134-147 | The result data after one line is `StderrLine` of the data before it. |
| PatcherOutput.FilterAll | Android_GUI/src/com/github/chenxiaolong/dualbootpatcher/patcher/PatcherUtils.java:129-147 | Feeding every line to the filter in arrival order folds the per-line update over them. |
| PatcherOutput.LastMarkerLine | Android_GUI/src/com/github/chenxiaolong/dualbootpatcher/patcher/PatcherUtils.java:134-147 | A last marker line exists exactly when some standard-error line holds a marker, and it holds one. |
| PatcherOutput.ReplayIsLastMarker | Android_GUI/src/com/github/chenxiaolong/dualbootpatcher/patcher/PatcherUtils.java:134-147 | Last marker wins: after any lines, the data is what the last marker line alone writes, and it is unchanged when there is none. |
| PatcherOutput.ReplayIgnoresStdout | Android_GUI/src/com/github/chenxiaolong/dualbootpatcher/patcher/PatcherUtils.java:129-131 | The filter's result depends only on the standard-error lines. |
| PatcherOutput.FailLineMessage | Android_GUI/src/com/github/chenxiaolong/dualbootpatcher/patcher/PatcherUtils.java:136-140 | `EXITFAIL:<msg>` reports `msg` and failure. |
| PatcherOutput.NoFailMarkerInSuccessMarker | Android_GUI/src/com/github/chenxiaolong/dualbootpatcher/patcher/PatcherUtils.java:136-141 | An `EXITSUCCESS:` line whose message lacks `EXITFAIL:` does not hold `EXITFAIL:` at all, so the success branch is the one taken. |
| PatcherOutput.SuccessLineMessage | Android_GUI/src/com/github/chenxiaolong/dualbootpatcher/patcher/PatcherUtils.java:141-145 | `EXITSUCCESS:<msg>` reports `msg` and success. |
| PatcherOutput.SuccessAfterFailureWins | Android_GUI/src/com/github/chenxiaolong/dualbootpatcher/patcher/PatcherUtils.java:134-147 | Noise, then a failure line, then a success line: the run reports success with the success line's message. |
| PatcherOutput.OkAfterBadDevice | Android_GUI/src/com/github/chenxiaolong/dualbootpatcher/patcher/PatcherUtils.java:134-147 | The lines `noise`, `EXITFAIL:bad device`, `EXITSUCCESS:ok` give message `ok` with failed false. |
| PatcherOutput.PatchResultFollowsLastMarker | Android_GUI/src/com/github/chenxiaolong/dualbootpatcher/patcher/PatcherUtils.java:255-263 | The patch result follows the last marker line. Without one, the message is empty and the run failed. |
| PatcherOutput.CommandResult.constructor | Android_GUI/src/com/github/chenxiaolong/dualbootpatcher/patcher/PatcherUtils.java:257-258 | A fresh result's data bundle holds neither a message nor a failed entry, so the defaults `""` and `true` apply until a marker line writes them. |
| PatcherOutput.FullOutputListener.constructor | Android_GUI/src/com/github/chenxiaolong/dualbootpatcher/patcher/PatcherUtils.java:105 | A new listener has captured nothing. |
| PatcherOutput.FullOutputListener.OnNewOutputLine | Android_GUI/src/com/github/chenxiaolong/dualbootpatcher/patcher/PatcherUtils.java:108-113 | A standard-output line and a separator are appended. A standard-error line changes nothing. |
| PatcherOutput.CaptureAll | Android_GUI/src/com/github/chenxiaolong/dualbootpatcher/patcher/PatcherUtils.java:104-122 | After all lines, the listener holds its old text followed by the captured text of the lines, in arrival order. |
| PatcherOutput.CapturedIgnoresStderr | Android_GUI/src/com/github/chenxiaolong/dualbootpatcher/patcher/PatcherUtils.java:108-113 | The captured text depends only on the standard-output lines. |
| PatcherOutput.SupportedIffFirstLine | Android_GUI/src/com/github/chenxiaolong/dualbootpatcher/patcher/PatcherUtils.java:342-344 | The captured text starts with `supported` exactly when the first standard-output line does. |
| PatcherOutput.NewFileNameWithoutZip | Android_GUI/src/com/github/chenxiaolong/dualbootpatcher/patcher/PatcherUtils.java:255 | A name without `.zip` is returned unchanged. |
| PatcherOutput.NewFileNameAtFirstZip | Android_GUI/src/com/github/chenxiaolong/dualbootpatcher/patcher/PatcherUtils.java:255 | The text before the first `.zip` is kept, that `.zip` becomes `_<partconfig>.zip`, and the rest is renamed the same way. |
| PatcherOutput.NewFileNameOfZip | Android_GUI/src/com/github/chenxiaolong/dualbootpatcher/patcher/PatcherUtils.java:255 | A name ending in its only `.zip` gets `_<partconfig>` before the extension, and `_null` for a null configuration. |
| PatcherOutput.RomZipForDual | Android_GUI/src/com/github/chenxiaolong/dualbootpatcher/patcher/PatcherUtils.java:255 | `rom.zip` with `dual` gives `rom_dual.zip`. |
| PatcherUtils.VersionOf | Android_GUI/src/com/github/chenxiaolong/dualbootpatcher/patcher/PatcherUtils.java:78 | The version is absent exactly for a non-empty name made only of `-`. Otherwise it is the `-`-free prefix, followed by `-` or by the end of the name. |
| PatcherUtils.VersionExamples | Android_GUI/src/com/github/chenxiaolong/dualbootpatcher/patcher/PatcherUtils.java:78 | A name without `-` is its own version, and `<v>-beta` is version `<v>`. |
| PatcherUtils.NamesOfVersions | Android_GUI/src/com/github/chenxiaolong/dualbootpatcher/patcher/PatcherUtils.java:43-44 | The archive is the directory name plus `.tar.xz`. Different versions get different archives and different directories. |
| PatcherUtils.CleanFilesFacts | Android_GUI/src/com/github/chenxiaolong/dualbootpatcher/patcher/PatcherUtils.java:403-411 | The clean-up keeps every entry and deletes exactly the children whose names contain `tmp`. A second clean-up changes nothing. |
| PatcherUtils.ExtractKeepsInstalled | Android_GUI/src/com/github/chenxiaolong/dualbootpatcher/patcher/PatcherUtils.java:400-444 | With the version's directory present, no entry is removed and no `tmp` child remains. |
| PatcherUtils.ExtractReplacesAll | Android_GUI/src/com/github/chenxiaolong/dualbootpatcher/patcher/PatcherUtils.java:416-444 | Without it, no previous entry survives unless the archive brings it back. |
| PatcherUtils.ExtractTwice | Android_GUI/src/com/github/chenxiaolong/dualbootpatcher/patcher/PatcherUtils.java:395-445 | Extraction happens at most once. If the directory was already there, the second call changes nothing. |
| PatcherUtils.DeleteTmpChildren | Android_GUI/src/com/github/chenxiaolong/dualbootpatcher/patcher/PatcherUtils.java:405-409 | Deleting one by one leaves exactly the children whose names lack `tmp`. |
| PatcherUtils.PatchOutcomeOfRun | Android_GUI/src/com/github/chenxiaolong/dualbootpatcher/patcher/PatcherUtils.java:250-264 | A completed run of a named file returns the renamed file plus what its last marker line says, or failure with an empty message. |
| PatcherUtils.PatcherRuntime.constructor | Android_GUI/src/com/github/chenxiaolong/dualbootpatcher/patcher/PatcherUtils.java:65-74 | All memo fields start null. |
| PatcherUtils.PatcherRuntime.GetFilename | Android_GUI/src/com/github/chenxiaolong/dualbootpatcher/patcher/PatcherUtils.java:76-83 | Returns the version's archive name and memoises it. Nothing else changes. |
| PatcherUtils.PatcherRuntime.GetTargetFile | Android_GUI/src/com/github/chenxiaolong/dualbootpatcher/patcher/PatcherUtils.java:85-92 | Returns the archive's path in the cache directory and memoises it, along with the file name on first use. |
| PatcherUtils.PatcherRuntime.GetTargetDirectory | Android_GUI/src/com/github/chenxiaolong/dualbootpatcher/patcher/PatcherUtils.java:94-102 | Returns the version's directory in the files directory and memoises it. |
| PatcherUtils.PatcherRuntime.ExtractPatcher | Android_GUI/src/com/github/chenxiaolong/dualbootpatcher/patcher/PatcherUtils.java:395-445 | Afterwards the cache directory is empty and the files directory is `AfterExtract` of the old one. The archive and directory memos are set. |
| PatcherUtils.PatcherRuntime.PatchFile | Android_GUI/src/com/github/chenxiaolong/dualbootpatcher/patcher/PatcherUtils.java:150-270 | Extracts first, then runs the round-tripping patch arguments with `PYTHONUNBUFFERED` and `TMPDIR` set. Returns null on interruption, the null-filename failure, or the assembled result. All three path memos are set afterwards. |
| PatcherUtils.PatcherRuntime.UpdateSyncdaemon | Android_GUI/src/com/github/chenxiaolong/dualbootpatcher/patcher/PatcherUtils.java:272-296 | Extracts first, runs the update command, and succeeds exactly when a result exists with exit code 0. |
| PatcherUtils.PatcherRuntime.IsFileSupported | Android_GUI/src/com/github/chenxiaolong/dualbootpatcher/patcher/PatcherUtils.java:298-351 | Leaves both directories alone and memoises the version's directory. It is true exactly when the run completed and its first standard-output line starts with `supported`. |
| PatcherUtils.PatcherRuntime.GetPatcherInformation | Android_GUI/src/com/github/chenxiaolong/dualbootpatcher/patcher/PatcherUtils.java:353-393 | A memo hit runs nothing and touches nothing. Otherwise it extracts, runs the dump script and loads its standard output. Only a successful load is remembered. |
| PatcherUtils.InformationIsRemembered | Android_GUI/src/com/github/chenxiaolong/dualbootpatcher/patcher/PatcherUtils.java:355-392 | After a successful load, a second call returns the same information. |

## Left out

- Process execution is not modelled. This covers `CommandRunner`, `start`, `join`, `CommandUtils.waitForCommand` and the threads behind them. A run is a parameter: the lines it delivered, in arrival order, or `None` when the wait was interrupted. For `updateSyncdaemon` the parameter is the exit code of its result, or `None` for a null result. The order in which lines of different streams interleave is whatever the parameter says.
- `synchronized` is not modelled; the model is sequential.
- The user listener that `patchFile` hands to the runner is not modelled, and neither is `logStdout = false` for the dump command.
- Android `Context` and `Bundle` are replaced: the request bundle is a datatype, and the two directories are constructor arguments.
- File paths are the directory, `/` and the name. `java.io.File` normalisation of repeated separators is not modelled.
- `RootFile.recursiveDelete`, `FileUtils.extractAsset` and `targetFile.delete()` are assumed to succeed. A deleted entry disappears with its whole subtree.
- `chmod(0755)` of the interpreter has no counterpart in the model.
- What busybox `tar` unpacks is the `unpacked` parameter. The tar command line that `CommandUtils.getBusyboxCommand` builds is not part of this model.
- `PatcherInformation.loadJson` is a parameter returning `None` where it throws `JSONException`. `PatcherInformation` is the type parameter `Info`, whose content is not modelled.
- The line separator is the constant `"\n"`.
- PatcherUtils.PatcherRuntime.constructor requires a version name that `split("-")[0]` can index. For a name made only of `-`, every getter would throw `ArrayIndexOutOfBoundsException`, and those throws are not modelled.
- What the process launch does with a null argument is not modelled. `patchFile` passes one when a string entry of the request is missing. The model keeps the null in the argument list and leaves the run's outcome to the parameter.
- The order in which `listFiles` enumerates entries is unspecified; the deletion loops pick entries in an arbitrary order.
- Only the null-pointer exception of a null filename in `patchFile` is modelled, as `NullFilename`. Other runtime exceptions from a misbehaving caller are not.
- `extractPatcher` ignores tar's outcome and deletes the archive even when extraction failed (PatcherUtils.java:428-443); the model does the same, and the files directory after a failed extraction is whatever `unpacked` says.
- The `tmp` clean-up runs before extraction, so what tar unpacks is not cleaned. `NoTmpChildren` is proved only for the branch that does not extract (`ExtractKeepsInstalled`).
- How `scripts/patchfile.py` parses its own options is not modelled; that script is not part of this model. `ParsePatchArgv` reads the list by position only, so a filename, device or preset path that begins with `--` would be read as a value here, whatever an option parser in the script makes of it.
- `CommandUtils.CommandResult` is modelled only by its `data` bundle, the part the filter writes and `patchFile` reads (PatcherUtils.java:139-145, 257-258); its exit code appears only as the `exitCode` parameter of `UpdateSyncdaemon`, and its other fields are not modelled.
