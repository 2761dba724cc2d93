/*
 * The installation bookkeeping of PatcherUtils and its four entry points:
 * the names derived from the application's version, the memoised paths and
 * patcher information, the clean-up and extraction of the patcher archive,
 * and `patchFile`, `isFileSupported`, `updateSyncdaemon` and
 * `getPatcherInformation` with the external commands as parameters.
 */
module PatcherUtils {
  import opened Wrappers
  import opened JavaStrings
  import opened PatchCommand
  import opened PatcherOutput

  // ---------------------------------------------------------------------
  // Names derived from the version
  // ---------------------------------------------------------------------

  const NAME_PREFIX: string := "DualBootPatcherAndroid-"
  const ARCHIVE_SUFFIX: string := ".tar.xz"
  const VERSION_SEPARATOR: char := '-'

  /**
   * `VERSION_NAME.split("-")[0]`: the version up to its first '-'. A version
   * name made only of '-' splits into no field at all, and indexing the
   * result throws; that case is None.
   */
  function VersionOf(versionName: string): (r: Option<string>)
    ensures r.None? <==> (versionName != [] && forall i :: 0 <= i < |versionName| ==> versionName[i] == VERSION_SEPARATOR)
    ensures r.Some? ==> VERSION_SEPARATOR !in r.value && StartsWith(versionName, r.value)
    ensures r.Some? ==> |r.value| == |versionName| || versionName[|r.value|] == VERSION_SEPARATOR
  {
    SplitFirstField(versionName, VERSION_SEPARATOR);
    TakeUntilPrefix(versionName, VERSION_SEPARATOR);
    var fields := Split(versionName, VERSION_SEPARATOR);
    if fields == [] then None else Some(fields[0])
  }

  /** `String.format(FILENAME, version)`: the patcher archive among the application's assets. */
  function ArchiveName(version: string): string {
    NAME_PREFIX + version + ARCHIVE_SUFFIX
  }

  /** `String.format(DIRNAME, version)`: the directory the archive unpacks to. */
  function DirName(version: string): string {
    NAME_PREFIX + version
  }

  /**
   * The archive is the directory's tarball, and different versions get
   * different archives and different directories.
   */
  lemma NamesOfVersions(v1: string, v2: string)
    ensures ArchiveName(v1) == DirName(v1) + ARCHIVE_SUFFIX
    ensures ArchiveName(v1) == ArchiveName(v2) <==> v1 == v2
    ensures DirName(v1) == DirName(v2) <==> v1 == v2
  {
    if ArchiveName(v1) == ArchiveName(v2) {
      assert |v1| == |v2|;
      assert v1 == ArchiveName(v1)[|NAME_PREFIX|..|NAME_PREFIX| + |v1|];
      assert v2 == ArchiveName(v2)[|NAME_PREFIX|..|NAME_PREFIX| + |v2|];
    }
    if DirName(v1) == DirName(v2) {
      assert v1 == DirName(v1)[|NAME_PREFIX|..];
      assert v2 == DirName(v2)[|NAME_PREFIX|..];
    }
  }

  /** A version name without '-' is its own version; "9.0-beta" is version "9.0". */
  lemma VersionExamples(versionName: string)
    requires VERSION_SEPARATOR !in versionName
    ensures VersionOf(versionName) == Some(versionName)
    ensures VersionOf(versionName + "-beta") == Some(versionName)
  {
    var s := versionName + "-beta";
    assert s[|versionName| + 1] != VERSION_SEPARATOR;
    var v := VersionOf(s).value;
    assert s[|versionName|] == VERSION_SEPARATOR;
    assert forall i :: 0 <= i < |versionName| ==> s[i] == versionName[i];
    assert forall i :: 0 <= i < |v| ==> v[i] == s[i];
    assert |v| == |versionName|;
    assert v == s[..|v|];
    assert s[..|versionName|] == versionName;
  }

  // ---------------------------------------------------------------------
  // The application's directories
  // ---------------------------------------------------------------------

  /** An entry of the files directory: a plain file, or a directory with the names of its children. */
  datatype Entry = File | Directory(children: set<string>)

  /** Children whose names contain this are leftovers of a patcher run. */
  const TMP: string := "tmp"

  /** The children of a directory that survive the clean-up. */
  function KeptChildren(children: set<string>): set<string> {
    set c | c in children && !Contains(c, TMP)
  }

  /** An entry after its temporary children are deleted. */
  function PruneTmp(e: Entry): Entry {
    match e
    case File => File
    case Directory(children) => Directory(KeptChildren(children))
  }

  /** The files directory after every `tmp` child of its subdirectories is deleted. */
  function CleanFiles(files: map<string, Entry>): map<string, Entry> {
    map n | n in files :: PruneTmp(files[n])
  }

  /** No directory in the files directory holds a child named like a temporary file. */
  predicate NoTmpChildren(files: map<string, Entry>) {
    forall n, c :: n in files && files[n].Directory? && c in files[n].children ==> !Contains(c, TMP)
  }

  /**
   * The files directory after `extractPatcher`: when the version's directory
   * is there after the clean-up it is kept, and so is everything else;
   * otherwise every entry is deleted and what the archive unpacks to is
   * all there is.
   */
  function AfterExtract(files: map<string, Entry>, dirName: string, unpacked: map<string, Entry>): map<string, Entry> {
    if dirName in CleanFiles(files) then CleanFiles(files) else unpacked
  }

  /**
   * The clean-up keeps every entry, deletes exactly the temporary children
   * of each directory, and leaves nothing for a second clean-up to do.
   */
  lemma CleanFilesFacts(files: map<string, Entry>)
    ensures CleanFiles(files).Keys == files.Keys
    ensures NoTmpChildren(CleanFiles(files))
    ensures forall n :: n in files && files[n].File? ==> CleanFiles(files)[n] == File
    ensures forall n, c :: n in files && files[n].Directory? ==>
      CleanFiles(files)[n].Directory? &&
      (c in CleanFiles(files)[n].children <==> c in files[n].children && !Contains(c, TMP))
    ensures CleanFiles(CleanFiles(files)) == CleanFiles(files)
  {
    var once := CleanFiles(files);
    forall n | n in once
      ensures CleanFiles(once)[n] == once[n]
    {
      if files[n].Directory? {
        assert KeptChildren(once[n].children) == once[n].children;
      }
    }
  }

  /**
   * With the version's directory present, nothing is extracted and nothing
   * but temporary children is deleted.
   */
  lemma ExtractKeepsInstalled(files: map<string, Entry>, dirName: string, unpacked: map<string, Entry>)
    requires dirName in files
    ensures AfterExtract(files, dirName, unpacked) == CleanFiles(files)
    ensures AfterExtract(files, dirName, unpacked).Keys == files.Keys
    ensures NoTmpChildren(AfterExtract(files, dirName, unpacked))
  {
    CleanFilesFacts(files);
  }

  /**
   * Without the version's directory, none of the previous entries survives:
   * the files directory holds what the archive unpacked, and nothing else.
   */
  lemma ExtractReplacesAll(files: map<string, Entry>, dirName: string, unpacked: map<string, Entry>)
    requires dirName !in files
    ensures AfterExtract(files, dirName, unpacked) == unpacked
    ensures forall n :: n in files && n !in unpacked ==> n !in AfterExtract(files, dirName, unpacked)
  {
    CleanFilesFacts(files);
  }

  /**
   * Extraction happens at most once: after a call that left the version's
   * directory in place, a second call extracts nothing and only deletes
   * temporary children; when the first call did not extract, the second one
   * changes nothing at all.
   */
  lemma ExtractTwice(files: map<string, Entry>, dirName: string, first: map<string, Entry>, second: map<string, Entry>)
    requires dirName in files || dirName in first
    ensures var once := AfterExtract(files, dirName, first);
      AfterExtract(once, dirName, second) == CleanFiles(once)
    ensures dirName in files ==>
      AfterExtract(AfterExtract(files, dirName, first), dirName, second) == AfterExtract(files, dirName, first)
  {
    CleanFilesFacts(files);
    var once := AfterExtract(files, dirName, first);
    CleanFilesFacts(once);
  }

  // ---------------------------------------------------------------------
  // Commands
  // ---------------------------------------------------------------------

  /** The parts of a `CommandParams` that the model records: argv, environment and working directory. */
  datatype CommandParams = CommandParams(command: seq<JString>, environment: Option<seq<string>>, cwd: string)

  const UNBUFFERED: string := "PYTHONUNBUFFERED=true"
  const TMPDIR_PREFIX: string := "TMPDIR="

  /** What `patchFile` returns: its result bundle, null after an interruption, or a null-pointer exception. */
  datatype PatchFileOutcome = Patched(result: PatchResult) | Interrupted | NullFilename

  /**
   * The outcome of `patchFile` for a run that was interrupted (None) or
   * delivered its lines: the name is derived only after the run, so a null
   * filename fails there and not before.
   */
  function PatchOutcome(data: PatchRequest, run: Option<seq<OutputLine>>): PatchFileOutcome {
    match run
    case None => Interrupted
    case Some(lines) =>
      if data.filename.None? then NullFilename
      else Patched(PatchResultOf(data.filename.value, data.partConfig, Replay(NO_DATA, lines)))
  }

  /**
   * A completed run of a named file reports what its last marker line says,
   * or failure with an empty message when it printed none.
   */
  lemma PatchOutcomeOfRun(data: PatchRequest, lines: seq<OutputLine>)
    requires data.filename.Some?
    ensures PatchOutcome(data, Some(lines)).Patched?
    ensures var r := PatchOutcome(data, Some(lines)).result;
      && r.newFile == NewFileName(data.filename.value, data.partConfig)
      && match LastMarkerLine(lines)
         case None => r.message == "" && r.failed
         case Some(line) =>
           && r.failed == Contains(line, FAIL_MARKER)
           && r.message == (if Contains(line, FAIL_MARKER) then ReplaceAll(line, FAIL_MARKER, "")
                            else ReplaceAll(line, SUCCESS_MARKER, ""))
  {
    PatchResultFollowsLastMarker(data.filename.value, data.partConfig, lines);
  }

  // ---------------------------------------------------------------------
  // The static state of PatcherUtils, and the device's directories
  // ---------------------------------------------------------------------

  /**
   * The static fields of PatcherUtils together with the two directories of
   * the application they act on. `Info` stands for `PatcherInformation`,
   * whose content is not part of this model.
   */
  class PatcherRuntime<Info> {
    /** `BuildConfig.VERSION_NAME`. */
    const versionName: string
    /** `context.getCacheDir()` and `context.getFilesDir()`. */
    const cacheDir: string
    const filesDir: string

    /** `mFileName`, `mTargetFile`, `mTargetDir` (as paths) and `mInfo`; None is null. */
    var fileName: Option<string>
    var targetFile: Option<string>
    var targetDir: Option<string>
    var info: Option<Info>

    /** The names in the cache directory and the entries of the files directory. */
    var cache: set<string>
    var files: map<string, Entry>

    /** The version the names are derived from. */
    function Version(): string
      requires VersionOf(versionName).Some?
    {
      VersionOf(versionName).value
    }

    /** The archive's path in the cache directory. */
    function ArchivePath(): string
      requires VersionOf(versionName).Some?
    {
      cacheDir + "/" + ArchiveName(Version())
    }

    /** The version's directory in the files directory. */
    function DirectoryPath(): string
      requires VersionOf(versionName).Some?
    {
      filesDir + "/" + DirName(Version())
    }

    /** A memoised value, once set, is the one derived from the version. */
    predicate Valid()
      reads this
    {
      && VersionOf(versionName).Some?
      && (fileName.Some? ==> fileName.value == ArchiveName(Version()))
      && (targetFile.Some? ==> fileName.Some? && targetFile.value == ArchivePath())
      && (targetDir.Some? ==> targetDir.value == DirectoryPath())
    }

    constructor (versionName: string, cacheDir: string, filesDir: string, cache: set<string>, files: map<string, Entry>)
      requires VersionOf(versionName).Some?
      ensures Valid()
      ensures this.versionName == versionName && this.cacheDir == cacheDir && this.filesDir == filesDir
      ensures fileName == None && targetFile == None && targetDir == None && info == None
      ensures this.cache == cache && this.files == files
    {
      this.versionName := versionName;
      this.cacheDir := cacheDir;
      this.filesDir := filesDir;
      fileName := None;
      targetFile := None;
      targetDir := None;
      info := None;
      this.cache := cache;
      this.files := files;
    }

    /** `getFilename`: computes the archive name once and returns it ever after. */
    method GetFilename() returns (name: string)
      requires Valid()
      modifies this
      ensures Valid()
      ensures name == ArchiveName(Version()) && fileName == Some(name)
      ensures targetFile == old(targetFile) && targetDir == old(targetDir) && info == old(info)
      ensures cache == old(cache) && files == old(files)
    {
      if fileName.None? {
        var version := Split(versionName, VERSION_SEPARATOR)[0];
        fileName := Some(NAME_PREFIX + version + ARCHIVE_SUFFIX);
      }
      name := fileName.value;
    }

    /** `getTargetFile`: the archive's path in the cache directory, computed once. */
    method GetTargetFile() returns (path: string)
      requires Valid()
      modifies this
      ensures Valid()
      ensures path == ArchivePath() && targetFile == Some(path)
      ensures fileName == (if old(targetFile).None? then Some(ArchiveName(Version())) else old(fileName))
      ensures targetDir == old(targetDir) && info == old(info)
      ensures cache == old(cache) && files == old(files)
    {
      if targetFile.None? {
        var name := GetFilename();
        targetFile := Some(cacheDir + "/" + name);
      }
      path := targetFile.value;
    }

    /** `getTargetDirectory`: the version's directory, computed once. */
    method GetTargetDirectory() returns (path: string)
      requires Valid()
      modifies this
      ensures Valid()
      ensures path == DirectoryPath() && targetDir == Some(path)
      ensures fileName == old(fileName) && targetFile == old(targetFile) && info == old(info)
      ensures cache == old(cache) && files == old(files)
    {
      if targetDir.None? {
        var version := Split(versionName, VERSION_SEPARATOR)[0];
        targetDir := Some(filesDir + "/" + NAME_PREFIX + version);
      }
      path := targetDir.value;
    }

    /**
     * `extractPatcher`: empties the cache directory, deletes the temporary
     * children of the files directory's subdirectories, and, when the
     * version's directory is missing, copies the archive to the cache,
     * empties the files directory, unpacks the archive (`unpacked` is what
     * tar leaves in the files directory) and deletes the archive.
     */
    method ExtractPatcher(unpacked: map<string, Entry>)
      requires Valid()
      modifies this
      ensures Valid()
      ensures cache == {}
      ensures files == AfterExtract(old(files), DirName(Version()), unpacked)
      ensures fileName == Some(ArchiveName(Version())) && targetFile == Some(ArchivePath())
      ensures targetDir == Some(DirectoryPath()) && info == old(info)
    {
      // cacheDir/*
      var inCache := cache;
      while inCache != {}
        decreases inCache
      {
        var d :| d in inCache;
        inCache := inCache - {d};
      }
      cache := inCache;

      // filesDir/*/tmp*
      label Pruning:
      var entries := files;
      var todo := entries.Keys;
      while todo != {}
        invariant unchanged@Pruning(this)
        invariant todo <= files.Keys && entries.Keys == files.Keys
        invariant forall n :: n in entries ==> entries[n] == (if n in todo then files[n] else PruneTmp(files[n]))
        decreases todo
      {
        var d :| d in todo;
        if entries[d].Directory? {
          var kept := DeleteTmpChildren(entries[d].children);
          entries := entries[d := Directory(kept)];
        }
        todo := todo - {d};
      }
      assert entries == CleanFiles(files);
      files := entries;

      var archive := GetTargetFile();
      var dir := GetTargetDirectory();
      var dirName := DirName(Version());
      if dirName !in files {
        // FileUtils.extractAsset copies the archive into the cache directory
        var name := fileName.value;
        cache := cache + {name};

        // Remove all previous files
        while entries != map[]
          decreases entries.Keys
        {
          var d :| d in entries;
          entries := entries - {d};
        }
        files := entries;

        // tar unpacks the archive; then the archive is deleted
        files := unpacked;
        cache := cache - {name};
      }
    }

    /**
     * `patchFile`: extracts the patcher, runs the patch script with the
     * request's arguments and, unless the wait for it is interrupted
     * (`run` is None), reads its result from the lines the output filter
     * saw.
     */
    method PatchFile(data: PatchRequest, run: Option<seq<OutputLine>>, unpacked: map<string, Entry>)
      returns (cmd: CommandParams, ret: PatchFileOutcome)
      requires Valid()
      modifies this
      ensures Valid()
      ensures cache == {} && files == AfterExtract(old(files), DirName(Version()), unpacked)
      ensures info == old(info)
      ensures fileName == Some(ArchiveName(Version())) && targetFile == Some(ArchivePath()) && targetDir == Some(DirectoryPath())
      ensures cmd.command == PatchArgv(data) && ParsePatchArgv(cmd.command) == Some(Options(data))
      ensures cmd.environment == Some([UNBUFFERED, TMPDIR_PREFIX + cacheDir]) && cmd.cwd == DirectoryPath()
      ensures ret == PatchOutcome(data, run)
    {
      ExtractPatcher(unpacked);
      var args := BuildPatchArgs(data);
      var dir := GetTargetDirectory();
      cmd := CommandParams(args, Some([UNBUFFERED, TMPDIR_PREFIX + cacheDir]), dir);
      match run
      case None =>
        ret := Interrupted;
      case Some(lines) =>
        var result := new CommandResult();
        FilterAll(result, lines);
        if data.filename.None? {
          ret := NullFilename;
        } else {
          var newFile := ReplaceAll(data.filename.value, ZIP, "_" + ConcatOperand(data.partConfig) + ZIP);
          var message := result.data.message.GetOr("");
          var failed := result.data.failed.GetOr(true);
          ret := Patched(PatchResult(newFile, message, failed));
        }
    }

    /**
     * `updateSyncdaemon`: extracts the patcher, runs the update script on the
     * boot image and succeeds exactly when the command produced a result
     * (`exitCode` is not None) whose exit code is 0.
     */
    method UpdateSyncdaemon(bootImage: JString, exitCode: Option<int>, unpacked: map<string, Entry>)
      returns (cmd: CommandParams, ok: bool)
      requires Valid()
      modifies this
      ensures Valid()
      ensures cache == {} && files == AfterExtract(old(files), DirName(Version()), unpacked)
      ensures info == old(info)
      ensures fileName == Some(ArchiveName(Version())) && targetFile == Some(ArchivePath()) && targetDir == Some(DirectoryPath())
      ensures cmd == CommandParams(SyncdaemonArgv(bootImage), Some([UNBUFFERED]), DirectoryPath())
      ensures ok <==> exitCode == Some(0)
    {
      ExtractPatcher(unpacked);
      var args := BuildSyncdaemonArgs(bootImage);
      var dir := GetTargetDirectory();
      cmd := CommandParams(args, Some([UNBUFFERED]), dir);
      if exitCode.Some? {
        ok := exitCode.value == 0;
      } else {
        ok := false;
      }
    }

    /**
     * `isFileSupported`: runs the patch script's support query without
     * extracting the patcher and answers whether the captured standard
     * output starts with "supported"; an interrupted wait answers false.
     */
    method IsFileSupported(data: PatchRequest, run: Option<seq<OutputLine>>)
      returns (cmd: CommandParams, supported: bool)
      requires Valid()
      modifies this
      ensures Valid()
      ensures cache == old(cache) && files == old(files)
      ensures fileName == old(fileName) && targetFile == old(targetFile) && info == old(info)
      ensures targetDir == Some(DirectoryPath())
      ensures cmd == CommandParams(SupportArgv(data), Some([UNBUFFERED]), DirectoryPath())
      ensures supported <==> run.Some? && FirstStdoutLine(run.value).Some?
                             && StartsWith(FirstStdoutLine(run.value).value, SUPPORTED)
    {
      var args := BuildSupportArgs(data);
      var dir := GetTargetDirectory();
      cmd := CommandParams(args, Some([UNBUFFERED]), dir);
      match run
      case None =>
        supported := false;
      case Some(lines) =>
        var listener := new FullOutputListener();
        CaptureAll(listener, lines);
        supported := StartsWith(listener.output, SUPPORTED);
        SupportedIffFirstLine(lines);
    }

    /**
     * `getPatcherInformation`: once loaded, the information is returned
     * without running anything; otherwise the patcher is extracted, the
     * dump script is run (`run` is None when the wait is interrupted) and
     * its standard output is loaded with `loadJson`, which fails (None) on
     * malformed input. Only a successful load is remembered.
     */
    method GetPatcherInformation(run: Option<seq<OutputLine>>, loadJson: string -> Option<Info>, unpacked: map<string, Entry>)
      returns (cmd: Option<CommandParams>, r: Option<Info>)
      requires Valid()
      modifies this
      ensures Valid()
      ensures old(info).Some? ==>
        && cmd == None && r == old(info)
        && cache == old(cache) && files == old(files)
        && fileName == old(fileName) && targetFile == old(targetFile) && targetDir == old(targetDir)
      ensures old(info).None? ==>
        && cmd == Some(CommandParams(Invocation(JSONDUMP_SCRIPT), Some([UNBUFFERED]), DirectoryPath()))
        && cache == {} && files == AfterExtract(old(files), DirName(Version()), unpacked)
        && fileName == Some(ArchiveName(Version())) && targetFile == Some(ArchivePath())
        && targetDir == Some(DirectoryPath())
        && r == (if run.None? then None else loadJson(Captured(run.value)))
      ensures info == (if old(info).Some? then old(info) else r)
    {
      if info.Some? {
        cmd := None;
        r := info;
        return;
      }
      ExtractPatcher(unpacked);
      var dir := GetTargetDirectory();
      cmd := Some(CommandParams([Some(PYTHON), Some(NO_BYTECODE), Some(JSONDUMP_SCRIPT)], Some([UNBUFFERED]), dir));
      match run
      case None =>
        r := None;
      case Some(lines) =>
        var listener := new FullOutputListener();
        CaptureAll(listener, lines);
        assert listener.output == Captured(lines);
        r := loadJson(listener.output);
        if r.Some? {
          info := r;
        }
    }
  }

  /**
   * `filesDir/<dir>/tmp*`: deletes, one by one, the children of a directory
   * whose names contain "tmp".
   */
  method DeleteTmpChildren(children: set<string>) returns (kept: set<string>)
    ensures kept == KeptChildren(children)
    ensures kept <= children && forall c :: c in kept ==> !Contains(c, TMP)
  {
    kept := children;
    var todo := children;
    while todo != {}
      invariant todo <= children
      invariant kept == set c | c in children && (c in todo || !Contains(c, TMP))
      decreases todo
    {
      var t :| t in todo;
      if Contains(t, TMP) {
        kept := kept - {t};
      }
      todo := todo - {t};
    }
  }

  /**
   * The memoised info is loaded at most once: a second call after a
   * successful load runs nothing and returns the same information.
   */
  method InformationIsRemembered<Info>(rt: PatcherRuntime<Info>, run1: Option<seq<OutputLine>>, run2: Option<seq<OutputLine>>,
                                       loadJson: string -> Option<Info>, unpacked: map<string, Entry>)
      returns (first: Option<Info>, second: Option<Info>)
    requires rt.Valid()
    modifies rt
    ensures first.Some? ==> second == first
    ensures rt.info.Some? ==> rt.info == second
  {
    var cmd1, cmd2;
    cmd1, first := rt.GetPatcherInformation(run1, loadJson, unpacked);
    cmd2, second := rt.GetPatcherInformation(run2, loadJson, unpacked);
    assert first.Some? ==> cmd2 == None;
  }
}
