/**
 * The command lines PatcherUtils hands to the bundled Python patcher:
 * `patchFile` (a decision tree over the request bundle), `isFileSupported`
 * and `updateSyncdaemon`. The argument list is modelled as the sequence of
 * Java String references it holds; `ArrayList.add(null)` keeps a null, so an
 * absent bundle entry shows up as None in the argument list.
 *
 * Besides the builders, the module gives a positional reading of the
 * argument list `patchFile` builds (each flag at the place where `patchFile`
 * puts it, each value in the slot after its flag), and proves that this
 * reading recovers exactly the options the request asked for. How the patch
 * script itself parses its options is not part of this model.
 */
module PatchCommand {
  import opened Wrappers

  /** A Java String reference; None stands for null. */
  type JString = Option<string>

  /** `Bundle.getBoolean(key)`: an absent entry reads as false. */
  function GetBoolean(entry: Option<bool>): bool {
    entry == Some(true)
  }

  const PYTHON: string := "pythonportable/bin/python3"
  const NO_BYTECODE: string := "-B"
  const PATCH_SCRIPT: string := "scripts/patchfile.py"
  const SYNCDAEMON_SCRIPT: string := "scripts/updatesyncdaemon.py"
  const JSONDUMP_SCRIPT: string := "scripts/jsondump.py"

  // The patch script's flags
  const AUTOPATCHER: string := "--autopatcher"
  const BOOTIMAGE: string := "--bootimage"
  const DEVICE: string := "--device"
  const HASBOOTIMAGE: string := "--hasbootimage"
  const IS_SUPPORTED: string := "--is-supported"
  const NOBOOTIMAGE: string := "--nobootimage"
  const NODEVICECHECK: string := "--nodevicecheck"
  const NOQUESTIONS: string := "--noquestions"
  const PARTCONFIG: string := "--partconfig"
  const PATCH: string := "--patch"
  const PATCHEDINIT: string := "--patchedinit"
  const PRESET: string := "--preset"
  const RAMDISK: string := "--ramdisk"
  const UNSUPPORTED: string := "--unsupported"

  /** The parcelable preset; only its path is read. */
  datatype PatchInfo = PatchInfo(path: JString)

  /** The entries of the request bundle `patchFile` and `isFileSupported` read. */
  datatype PatchRequest = PatchRequest(
    filename: JString,
    supported: Option<bool>,
    device: JString,
    partConfig: JString,
    preset: Option<PatchInfo>,
    useAutopatcher: Option<bool>,
    autopatcher: JString,
    usePatch: Option<bool>,
    patch: JString,
    deviceCheck: Option<bool>,
    hasBootImage: Option<bool>,
    ramdisk: JString,
    patchedInit: JString,
    bootImage: JString)

  // ---------------------------------------------------------------------
  // The argument lists, as the composition of their parts
  // ---------------------------------------------------------------------

  /** The interpreter, the flag that stops it writing bytecode, and the script. */
  function Invocation(script: string): seq<JString> {
    [Some(PYTHON), Some(NO_BYTECODE), Some(script)]
  }

  /** The file, the device and the partition configuration the patch is for. */
  function TargetArgs(d: PatchRequest): seq<JString> {
    [d.filename, Some(DEVICE), d.device, Some(PARTCONFIG), d.partConfig]
  }

  function AutopatcherArgs(d: PatchRequest): seq<JString> {
    if GetBoolean(d.useAutopatcher) then [Some(AUTOPATCHER), d.autopatcher] else []
  }

  function PatchArgs(d: PatchRequest): seq<JString> {
    if GetBoolean(d.usePatch) then [Some(PATCH), d.patch] else []
  }

  function BootImageArgs(d: PatchRequest): seq<JString> {
    if !GetBoolean(d.hasBootImage) then [Some(NOBOOTIMAGE)]
    else
      [Some(HASBOOTIMAGE), Some(BOOTIMAGE), Some(d.bootImage.GetOr("auto")), Some(RAMDISK), d.ramdisk]
      + (if d.patchedInit.Some? then [Some(PATCHEDINIT), d.patchedInit] else [])
  }

  /** A preset takes priority over the manual autopatcher, patch and boot image choices. */
  function SelectionArgs(d: PatchRequest): seq<JString> {
    match d.preset
    case Some(info) => [Some(PRESET), info.path]
    case None => AutopatcherArgs(d) + PatchArgs(d) + BootImageArgs(d)
  }

  function DeviceCheckArgs(d: PatchRequest): seq<JString> {
    if GetBoolean(d.deviceCheck) then [] else [Some(NODEVICECHECK)]
  }

  /** The argument list `patchFile` runs. */
  function PatchArgv(d: PatchRequest): seq<JString> {
    Invocation(PATCH_SCRIPT) + [Some(NOQUESTIONS)] + TargetArgs(d)
    + (if GetBoolean(d.supported) then []
       else [Some(UNSUPPORTED)] + SelectionArgs(d) + DeviceCheckArgs(d))
  }

  /** The argument list `isFileSupported` runs. */
  function SupportArgv(d: PatchRequest): seq<JString> {
    Invocation(PATCH_SCRIPT) + [Some(IS_SUPPORTED)] + TargetArgs(d)
  }

  /** The argument list `updateSyncdaemon` runs. */
  function SyncdaemonArgv(bootImage: JString): seq<JString> {
    Invocation(SYNCDAEMON_SCRIPT) + [bootImage]
  }

  // ---------------------------------------------------------------------
  // What a patch request asks of the script
  // ---------------------------------------------------------------------

  datatype BootImage =
    | NoBootImage
    | HasBootImage(image: string, ramdisk: JString, patchedInit: JString)

  datatype Selection =
    | Preset(path: JString)
    | Manual(autopatcher: Option<JString>, patch: Option<JString>, boot: BootImage)

  datatype Unsupported = Unsupported(selection: Selection, deviceCheck: bool)

  /** The options of one patch run; `unsupported` is None for a supported file. */
  datatype PatchOptions = PatchOptions(filename: JString, device: JString, partConfig: JString, unsupported: Option<Unsupported>)

  function BootImageOf(d: PatchRequest): BootImage {
    if GetBoolean(d.hasBootImage) then HasBootImage(d.bootImage.GetOr("auto"), d.ramdisk, d.patchedInit)
    else NoBootImage
  }

  function SelectionOf(d: PatchRequest): Selection {
    match d.preset
    case Some(info) => Preset(info.path)
    case None =>
      Manual(if GetBoolean(d.useAutopatcher) then Some(d.autopatcher) else None,
             if GetBoolean(d.usePatch) then Some(d.patch) else None,
             BootImageOf(d))
  }

  /** The options a request bundle asks for. */
  function Options(d: PatchRequest): PatchOptions {
    PatchOptions(d.filename, d.device, d.partConfig,
      if GetBoolean(d.supported) then None
      else Some(Unsupported(SelectionOf(d), GetBoolean(d.deviceCheck))))
  }

  // ---------------------------------------------------------------------
  // A positional reading of the argument list
  // ---------------------------------------------------------------------

  /** An optional `flag value` pair at the front of r, and what follows it. */
  function ParseOptional(r: seq<JString>, flag: string): (Option<JString>, seq<JString>) {
    if |r| >= 2 && r[0] == Some(flag) then (Some(r[1]), r[2..]) else (None, r)
  }

  function ParseBootImage(r: seq<JString>): Option<(BootImage, seq<JString>)> {
    if |r| >= 1 && r[0] == Some(NOBOOTIMAGE) then Some((NoBootImage, r[1..]))
    else if |r| >= 5 && r[0] == Some(HASBOOTIMAGE) && r[1] == Some(BOOTIMAGE) && r[2].Some?
            && r[3] == Some(RAMDISK) then
      if |r| >= 7 && r[5] == Some(PATCHEDINIT) && r[6].Some? then
        Some((HasBootImage(r[2].value, r[4], r[6]), r[7..]))
      else Some((HasBootImage(r[2].value, r[4], None), r[5..]))
    else None
  }

  /** The tail after the selection: nothing, or the flag that turns the device check off. */
  function ParseDeviceCheck(r: seq<JString>): Option<bool> {
    if r == [] then Some(true)
    else if r == [Some(NODEVICECHECK)] then Some(false)
    else None
  }

  /** The choices after `--unsupported` when no preset is given. */
  function ParseManual(r: seq<JString>): Option<Unsupported> {
    var autopatcher := ParseOptional(r, AUTOPATCHER);
    var patch := ParseOptional(autopatcher.1, PATCH);
    match ParseBootImage(patch.1)
    case None => None
    case Some(boot) =>
      match ParseDeviceCheck(boot.1)
      case None => None
      case Some(check) => Some(Unsupported(Manual(autopatcher.0, patch.0, boot.0), check))
  }

  function ParseUnsupported(r: seq<JString>): Option<Unsupported> {
    if |r| >= 2 && r[0] == Some(PRESET) then
      match ParseDeviceCheck(r[2..])
      case None => None
      case Some(check) => Some(Unsupported(Preset(r[1]), check))
    else ParseManual(r)
  }

  /** Reads a patch script command line back into its options; None when it is not one. */
  function ParsePatchArgv(argv: seq<JString>): Option<PatchOptions> {
    if |argv| < 9 || argv[..4] != Invocation(PATCH_SCRIPT) + [Some(NOQUESTIONS)]
       || argv[5] != Some(DEVICE) || argv[7] != Some(PARTCONFIG) then None
    else if |argv| == 9 then Some(PatchOptions(argv[4], argv[6], argv[8], None))
    else if argv[9] != Some(UNSUPPORTED) then None
    else
      match ParseUnsupported(argv[10..])
      case None => None
      case Some(u) => Some(PatchOptions(argv[4], argv[6], argv[8], Some(u)))
  }

  // ---------------------------------------------------------------------
  // Round trip
  // ---------------------------------------------------------------------

  lemma DeviceCheckRoundTrip(d: PatchRequest)
    ensures ParseDeviceCheck(DeviceCheckArgs(d)) == Some(GetBoolean(d.deviceCheck))
  {
  }

  /** The boot image arguments read back as the boot image choice, leaving the device-check tail. */
  lemma BootImageRoundTrip(d: PatchRequest, tail: seq<JString>)
    requires tail == DeviceCheckArgs(d)
    ensures ParseBootImage(BootImageArgs(d) + tail) == Some((BootImageOf(d), tail))
  {
    var r := BootImageArgs(d) + tail;
    if GetBoolean(d.hasBootImage) {
      if d.patchedInit.Some? {
        assert r[7..] == tail;
      } else {
        assert r[5..] == tail;
      }
    } else {
      assert r[1..] == tail;
    }
  }

  /** The flags that open the parts after `--unsupported` are told apart by the parser. */
  lemma SelectionFlagsDistinct()
    ensures PRESET != AUTOPATCHER && PRESET != PATCH && PRESET != NOBOOTIMAGE && PRESET != HASBOOTIMAGE
    ensures AUTOPATCHER != PATCH && AUTOPATCHER != NOBOOTIMAGE && AUTOPATCHER != HASBOOTIMAGE
    ensures PATCH != NOBOOTIMAGE && PATCH != HASBOOTIMAGE
  {
    assert PRESET[2] == 'p' && PATCH[2] == 'p' && AUTOPATCHER[2] == 'a';
    assert NOBOOTIMAGE[2] == 'n' && HASBOOTIMAGE[2] == 'h';
    assert PRESET[3] == 'r' && PATCH[3] == 'a';
  }

  /** The optional autopatcher and patch pairs read back as requested, leaving the boot image arguments. */
  lemma ManualPairsRoundTrip(d: PatchRequest, boot: seq<JString>)
    requires boot == BootImageArgs(d) + DeviceCheckArgs(d)
    ensures ParseOptional(AutopatcherArgs(d) + PatchArgs(d) + boot, AUTOPATCHER)
         == (if GetBoolean(d.useAutopatcher) then Some(d.autopatcher) else None, PatchArgs(d) + boot)
    ensures ParseOptional(PatchArgs(d) + boot, PATCH)
         == (if GetBoolean(d.usePatch) then Some(d.patch) else None, boot)
  {
    var r1 := PatchArgs(d) + boot;
    var r := AutopatcherArgs(d) + PatchArgs(d) + boot;
    assert r == AutopatcherArgs(d) + r1;
    SelectionFlagsDistinct();
    assert boot[0] == BootImageArgs(d)[0];
    assert r1[0] != Some(AUTOPATCHER) && |r1| >= 1 by {
      if GetBoolean(d.usePatch) {
        assert r1[0] == Some(PATCH);
      } else {
        assert r1 == boot;
      }
    }
    if GetBoolean(d.useAutopatcher) {
      assert r[0] == Some(AUTOPATCHER) && r[1] == d.autopatcher;
      assert r[2..] == r1;
    } else {
      assert r == r1;
    }
    if GetBoolean(d.usePatch) {
      assert r1[2..] == boot;
    } else {
      assert r1 == boot;
    }
  }

  lemma ManualRoundTrip(d: PatchRequest)
    requires d.preset.None?
    ensures ParseUnsupported(SelectionArgs(d) + DeviceCheckArgs(d))
         == Some(Unsupported(SelectionOf(d), GetBoolean(d.deviceCheck)))
  {
    var tail := DeviceCheckArgs(d);
    var boot := BootImageArgs(d) + tail;
    DeviceCheckRoundTrip(d);
    BootImageRoundTrip(d, tail);
    ManualPairsRoundTrip(d, boot);
    SelectionFlagsDistinct();
    var r := SelectionArgs(d) + tail;
    assert r == AutopatcherArgs(d) + PatchArgs(d) + boot;
    assert ParseManual(r) == Some(Unsupported(SelectionOf(d), GetBoolean(d.deviceCheck)));
    assert r[0] != Some(PRESET) by {
      assert boot[0] == BootImageArgs(d)[0];
    }
  }

  lemma SelectionRoundTrip(d: PatchRequest)
    ensures ParseUnsupported(SelectionArgs(d) + DeviceCheckArgs(d))
         == Some(Unsupported(SelectionOf(d), GetBoolean(d.deviceCheck)))
  {
    if d.preset.Some? {
      var r := SelectionArgs(d) + DeviceCheckArgs(d);
      DeviceCheckRoundTrip(d);
      assert r[2..] == DeviceCheckArgs(d);
    } else {
      ManualRoundTrip(d);
    }
  }

  /**
   * The argument list `patchFile` builds encodes its request without loss:
   * reading it back positionally gives exactly the options
   * the bundle asked for (file, device and partition configuration; whether
   * the file is unsupported; the preset, or the autopatcher, patch and boot
   * image choices; whether the device check is off).
   */
  lemma {:induction false} PatchArgvRoundTrip(d: PatchRequest)
    ensures ParsePatchArgv(PatchArgv(d)) == Some(Options(d))
  {
    var argv := PatchArgv(d);
    assert argv[..4] == Invocation(PATCH_SCRIPT) + [Some(NOQUESTIONS)];
    if !GetBoolean(d.supported) {
      assert argv[10..] == SelectionArgs(d) + DeviceCheckArgs(d);
      SelectionRoundTrip(d);
    }
  }

  /** Two requests that build the same argument list ask for the same options. */
  lemma PatchArgvDeterminesOptions(d1: PatchRequest, d2: PatchRequest)
    requires PatchArgv(d1) == PatchArgv(d2)
    ensures Options(d1) == Options(d2)
  {
    PatchArgvRoundTrip(d1);
    PatchArgvRoundTrip(d2);
  }

  /**
   * The two fixed shapes: a supported file gets the nine base arguments and
   * nothing else; an unsupported file with a preset gets `--unsupported
   * --preset <path>` and then `--nodevicecheck` only when the device check is off.
   */
  lemma PatchArgvShapes(d: PatchRequest)
    ensures GetBoolean(d.supported) ==>
      PatchArgv(d) == [Some(PYTHON), Some(NO_BYTECODE), Some(PATCH_SCRIPT), Some(NOQUESTIONS),
                       d.filename, Some(DEVICE), d.device, Some(PARTCONFIG), d.partConfig]
    ensures !GetBoolean(d.supported) && d.preset.Some? ==>
      PatchArgv(d) == [Some(PYTHON), Some(NO_BYTECODE), Some(PATCH_SCRIPT), Some(NOQUESTIONS),
                       d.filename, Some(DEVICE), d.device, Some(PARTCONFIG), d.partConfig,
                       Some(UNSUPPORTED), Some(PRESET), d.preset.value.path]
                      + (if GetBoolean(d.deviceCheck) then [] else [Some(NODEVICECHECK)])
    ensures !GetBoolean(d.supported) && !GetBoolean(d.deviceCheck) ==>
      PatchArgv(d)[|PatchArgv(d)| - 1] == Some(NODEVICECHECK)
  {
  }

  /**
   * What the unsupported, preset-free command line says, read back
   * positionally: `--autopatcher` is given exactly when requested, `--patch`
   * exactly when requested, the boot image is `--nobootimage` exactly when
   * the request has none, otherwise the given image or "auto" with the
   * ramdisk and, exactly when one is given, the patched init; the device
   * check is off exactly when the request turns it off.
   */
  lemma ManualSelectionOptions(d: PatchRequest)
    requires !GetBoolean(d.supported) && d.preset.None?
    ensures ParsePatchArgv(PatchArgv(d)).Some?
    ensures var u := ParsePatchArgv(PatchArgv(d)).value.unsupported;
      && u.Some? && u.value.selection.Manual?
      && (u.value.selection.autopatcher.Some? <==> GetBoolean(d.useAutopatcher))
      && (u.value.selection.patch.Some? <==> GetBoolean(d.usePatch))
      && (u.value.selection.boot.NoBootImage? <==> !GetBoolean(d.hasBootImage))
      && (u.value.selection.boot.HasBootImage? ==>
            && u.value.selection.boot.image == (if d.bootImage.None? then "auto" else d.bootImage.value)
            && u.value.selection.boot.ramdisk == d.ramdisk
            && (u.value.selection.boot.patchedInit.Some? <==> d.patchedInit.Some?))
      && (u.value.deviceCheck <==> GetBoolean(d.deviceCheck))
  {
    PatchArgvRoundTrip(d);
  }

  /**
   * The `isFileSupported` command line is the patch command line's first
   * nine arguments with `--noquestions` swapped for `--is-supported`.
   */
  lemma SupportArgvMirrorsPatchArgv(d: PatchRequest)
    ensures |SupportArgv(d)| == 9
    ensures SupportArgv(d)[..3] == PatchArgv(d)[..3]
    ensures SupportArgv(d)[3] == Some(IS_SUPPORTED) && PatchArgv(d)[3] == Some(NOQUESTIONS)
    ensures SupportArgv(d)[4..] == PatchArgv(d)[4..9]
  {
  }

  // ---------------------------------------------------------------------
  // The builders, argument by argument
  // ---------------------------------------------------------------------

  /** `patchFile`'s construction of its argument list (PatcherUtils.patchFile, before the run). */
  method BuildPatchArgs(data: PatchRequest) returns (args: seq<JString>)
    ensures args == PatchArgv(data)
    ensures ParsePatchArgv(args) == Some(Options(data))
  {
    args := [];
    args := args + [Some(PYTHON)];
    args := args + [Some(NO_BYTECODE)];
    args := args + [Some(PATCH_SCRIPT)];
    args := args + [Some(NOQUESTIONS)];
    args := AddTargetArgs(args, data);

    var supported := GetBoolean(data.supported);
    if !supported {
      args := args + [Some(UNSUPPORTED)];
      args := AddSelectionArgs(args, data);
      args := AddDeviceCheckArgs(args, data);
    }
    PatchArgvRoundTrip(data);
  }

  /** Appends the filename, `--device <device>` and `--partconfig <partconfig>`. */
  method AddTargetArgs(prefix: seq<JString>, data: PatchRequest) returns (args: seq<JString>)
    ensures args == prefix + TargetArgs(data)
  {
    args := prefix;
    var filename := data.filename;
    args := args + [filename];

    var device := data.device;
    args := args + [Some(DEVICE)];
    args := args + [device];

    var partConfig := data.partConfig;
    args := args + [Some(PARTCONFIG)];
    args := args + [partConfig];
  }

  /** Appends the preset, or the autopatcher, patch and boot image arguments. */
  method AddSelectionArgs(prefix: seq<JString>, data: PatchRequest) returns (args: seq<JString>)
    ensures args == prefix + SelectionArgs(data)
  {
    args := prefix;
    var preset := data.preset;
    if preset.Some? {
      args := args + [Some(PRESET)];
      args := args + [preset.value.path];
    } else {
      var useAutopatcher := GetBoolean(data.useAutopatcher);
      if useAutopatcher {
        var autopatcher := data.autopatcher;
        args := args + [Some(AUTOPATCHER)];
        args := args + [autopatcher];
      }
      assert args == prefix + AutopatcherArgs(data);

      var usePatch := GetBoolean(data.usePatch);
      if usePatch {
        var patch := data.patch;
        args := args + [Some(PATCH)];
        args := args + [patch];
      }
      assert args == prefix + AutopatcherArgs(data) + PatchArgs(data);

      args := AddBootImageArgs(args, data);
    }
  }

  /** Appends `--nobootimage`, or `--hasbootimage` with the boot image, ramdisk and patched init. */
  method AddBootImageArgs(prefix: seq<JString>, data: PatchRequest) returns (args: seq<JString>)
    ensures args == prefix + BootImageArgs(data)
  {
    args := prefix;
    var hasBootImage := GetBoolean(data.hasBootImage);
    if !hasBootImage {
      args := args + [Some(NOBOOTIMAGE)];
    } else {
      args := args + [Some(HASBOOTIMAGE)];

      var bootImage := data.bootImage;
      args := args + [Some(BOOTIMAGE)];
      if bootImage.None? {
        args := args + [Some("auto")];
      } else {
        args := args + [bootImage];
      }

      var ramdisk := data.ramdisk;
      args := args + [Some(RAMDISK)];
      args := args + [ramdisk];

      var init := data.patchedInit;
      if init.Some? {
        args := args + [Some(PATCHEDINIT)];
        args := args + [init];
      }
    }
  }

  /** Appends `--nodevicecheck` when the request turns the device check off. */
  method AddDeviceCheckArgs(prefix: seq<JString>, data: PatchRequest) returns (args: seq<JString>)
    ensures args == prefix + DeviceCheckArgs(data)
  {
    args := prefix;
    var deviceCheck := GetBoolean(data.deviceCheck);
    if !deviceCheck {
      args := args + [Some(NODEVICECHECK)];
    }
  }

  /** `isFileSupported`'s construction of its argument list. */
  method BuildSupportArgs(data: PatchRequest) returns (args: seq<JString>)
    ensures args == SupportArgv(data)
    ensures |args| == 9 && args[3] == Some(IS_SUPPORTED)
    ensures args[4] == data.filename && args[6] == data.device && args[8] == data.partConfig
  {
    args := [];
    args := args + [Some(PYTHON)];
    args := args + [Some(NO_BYTECODE)];
    args := args + [Some(PATCH_SCRIPT)];
    args := args + [Some(IS_SUPPORTED)];
    args := AddTargetArgs(args, data);
  }

  /** `updateSyncdaemon`'s construction of its argument list. */
  method BuildSyncdaemonArgs(bootImage: JString) returns (args: seq<JString>)
    ensures args == SyncdaemonArgv(bootImage)
    ensures |args| == 4 && args[2] == Some(SYNCDAEMON_SCRIPT) && args[3] == bootImage
  {
    args := [];
    args := args + [Some(PYTHON)];
    args := args + [Some(NO_BYTECODE)];
    args := args + [Some(SYNCDAEMON_SCRIPT)];
    args := args + [bootImage];
  }
}
