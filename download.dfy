/** `download(args)` (src/helpers/download.ts): checks that the destination's
    directory is writable, creates a temporary directory, downloads the
    release archive there, extracts the `shellcheck` binary, sets its mode,
    renames it onto the destination, and removes the temporary directory on
    every exit path.

    `Download` is the pipeline as the source writes it: a try block that
    returns at the first failure, then a `finally` that removes the temporary
    directory and swallows a failure to do so. `Run` is the same pipeline as a
    function of the initial filesystem and the collaborators' answers; the
    method is proved equal to it, and the lemmas below state what the source
    promises about every run. */
module Download {
  import opened Wrappers
  import opened Effects
  import opened Architecture

  /** `DownloadArgs`. */
  datatype DownloadArgs = DownloadArgs(url: Option<Url>, destination: Path,
                                       platform: Option<Platform>, architecture: Option<Arch>)

  /** The part of `config` that `download` reads: the mode of the installed binary. */
  datatype Config = Config(mode: Mode)

  /** The answers of everything outside the model: `os.tmpdir()`, the random
      suffix `fs.mkdtemp` picks (None: it fails), `buildURL` (None: it
      throws), the network for each URL (None: the transfer fails), the
      archive decoders of `decompress` (None: a malformed archive), and whether
      the kernel lets `chmod`, `rename` and `rm` succeed. */
  datatype Oracle = Oracle(
    tmpdir: Path,
    tmpName: Option<string>,
    buildUrl: (Platform, Arch) -> Option<Url>,
    fetch: Url -> Option<Bytes>,
    unpack: Bytes -> Option<seq<Entry>>,
    chmodOk: bool,
    renameOk: bool,
    rmOk: bool)

  /** The step whose error `download` rethrows. */
  datatype Failure =
    | AccessFailed | MkdtempFailed | BuildUrlFailed | DownloadFailed
    | ExtractFailed | ChmodFailed | RenameFailed

  /** The name the downloaded archive is saved under in the temporary directory. */
  const ArchiveFile: Rel := ["shellcheck.download"]

  /** `binArchive`: the binary's file name on `platform`. */
  function BinArchive(platform: Platform): (name: string)
    ensures name == "shellcheck.exe" <==> platform == "win32"
    ensures name == "shellcheck" <==> platform != "win32"
  {
    "shellcheck" + (if platform == "win32" then ".exe" else "")
  }

  /** `args.platform ?? process.platform`. */
  function PlatformOf(args: DownloadArgs, process: Process): Platform {
    args.platform.GetOr(process.platform)
  }

  /** `args.architecture ?? process.arch`. */
  function ArchitectureOf(args: DownloadArgs, process: Process): Arch {
    args.architecture.GetOr(process.arch)
  }

  /** Where the binary sits in the temporary directory once extracted. */
  function BinPath(args: DownloadArgs, process: Process): Rel {
    [BinArchive(PlatformOf(args, process))]
  }

  /** The URL `download` fetches: the one given, else what `buildURL` returns. */
  function UrlOf(args: DownloadArgs, process: Process, env: Oracle): (url: Option<Url>)
    ensures args.url.Some? ==> url == args.url
  {
    if args.url.Some? then args.url else env.buildUrl(PlatformOf(args, process), ArchitectureOf(args, process))
  }

  /** The `filter` option: keep the (already stripped) entry whose path is
      exactly the binary's name. */
  function BinaryFilter(bin: string): Entry -> bool {
    (e: Entry) => e.path == [bin]
  }

  /** The `prefix` given to `fs.mkdtemp`: `${os.tmpdir()}${path.sep}`. */
  function TmpPrefix(env: Oracle): Path {
    env.tmpdir + "/"
  }

  /** Index of the last '/' in `p`, or -1 when there is none. */
  function LastSlash(p: Path): (i: int)
    ensures -1 <= i < |p|
    ensures i >= 0 ==> p[i] == '/'
    ensures forall j :: i < j < |p| ==> p[j] != '/'
    ensures i == -1 ==> forall j :: 0 <= j < |p| ==> p[j] != '/'
  {
    if |p| == 0 then -1 else if p[|p| - 1] == '/' then |p| - 1 else LastSlash(p[..|p| - 1])
  }

  /** `path.dirname(p)` on a path without trailing separators. */
  function Dirname(p: Path): (d: Path)
    ensures (forall j :: 0 <= j < |p| ==> p[j] != '/') ==> d == "."
    ensures |p| > 0 && p[0] == '/' && (forall j :: 0 < j < |p| ==> p[j] != '/') ==> d == "/"
    ensures forall i :: 0 < i < |p| && p[i] == '/' && (forall j :: i < j < |p| ==> p[j] != '/') ==> d == p[..i]
  {
    var i := LastSlash(p);
    if i < 0 then "." else if i == 0 then "/" else p[..i]
  }

  /** An archive entry that, after one leading component is stripped, is the binary. */
  predicate IsBinary(e: Entry, bin: string) {
    StripDirs(e.path, 1) == [bin]
  }

  /** The archive entry extraction leaves in the temporary directory: the last
      entry that is the binary once stripped, if any. */
  function LastBinary(entries: seq<Entry>, bin: string): (r: Option<Entry>)
    ensures r.None? <==> forall i :: 0 <= i < |entries| ==> !IsBinary(entries[i], bin)
    ensures r.Some? ==>
      exists i :: 0 <= i < |entries| && entries[i] == r.value && IsBinary(entries[i], bin) &&
                  forall j :: i < j < |entries| ==> !IsBinary(entries[j], bin)
  {
    if entries == [] then None
    else
      var rest := LastBinary(entries[1..], bin);
      assert forall i :: 0 < i < |entries| ==> entries[i] == entries[1..][i - 1];
      if rest.Some? then
        ghost var k :| 0 <= k < |entries[1..]| && entries[1..][k] == rest.value && IsBinary(entries[1..][k], bin) &&
                       forall j :: k < j < |entries[1..]| ==> !IsBinary(entries[1..][j], bin);
        assert entries[k + 1] == rest.value;
        rest
      else if IsBinary(entries[0], bin) then Some(entries[0])
      else None
  }

  /** Extraction with `strip: 1` and the binary filter changes the temporary
      directory at one path only, the binary's name, and puts there the last
      archive entry that is the binary; with no such entry it changes nothing. */
  lemma {:induction false} ExtractKeepsOnlyBinary(contents: map<Rel, File>, entries: seq<Entry>, bin: string)
    decreases |entries|
    ensures WriteAll(contents, Unpacked(entries, 1, BinaryFilter(bin))) ==
      match LastBinary(entries, bin)
      case None => contents
      case Some(e) => contents[[bin] := File(e.data, e.mode)]
  {
    if entries != [] {
      var e := entries[0].(path := StripDirs(entries[0].path, 1));
      var rest := Unpacked(entries[1..], 1, BinaryFilter(bin));
      assert Unpacked(entries, 1, BinaryFilter(bin)) == (if BinaryFilter(bin)(e) then [e] else []) + rest;
      if BinaryFilter(bin)(e) {
        assert ([e] + rest)[0] == e && ([e] + rest)[1..] == rest;
        ExtractKeepsOnlyBinary(contents[[bin] := File(e.data, e.mode)], entries[1..], bin);
      } else {
        assert [] + rest == rest;
        ExtractKeepsOnlyBinary(contents, entries[1..], bin);
      }
    }
  }

  /** The outcome of the try block, with `tmpDir` as it stands when the block exits. */
  datatype Attempt = Attempt(result: Result<(), Failure>, tmpDir: Option<Path>, state: FsState, calls: seq<Call>)

  /** The steps of the try block, in source order; each carries what the
      earlier steps produced (the temporary directory, the URL). */
  datatype Step =
    | CheckDestination
    | MakeTempDir
    | ResolveUrl(dir: Path)
    | FetchArchive(dir: Path, url: Url)
    | ExtractBinary(dir: Path)
    | SetMode(dir: Path)
    | MoveIntoPlace(dir: Path)

  /** How many steps remain, this one included. */
  function Remaining(step: Step): nat {
    match step
    case CheckDestination => 7
    case MakeTempDir => 6
    case ResolveUrl(_) => 5
    case FetchArchive(_, _) => 4
    case ExtractBinary(_) => 3
    case SetMode(_) => 2
    case MoveIntoPlace(_) => 1
  }

  /** What one step leads to: the try block exits (the step failed, or it
      was the last), or the next step runs on the new state. `calls` is the
      trace of calls so far, this step's included. */
  datatype Transition =
    | Exit(attempt: Attempt)
    | Next(step: Step, state: FsState, calls: seq<Call>)

  /** Runs one step of the try block on the filesystem `s`; `calls` is the
      trace of the calls made before it. */
  function Perform(step: Step, args: DownloadArgs, process: Process, cfg: Config, env: Oracle,
                   s: FsState, calls: seq<Call>): (t: Transition)
    ensures t.Next? ==> Remaining(t.step) < Remaining(step)
  {
    var bin := BinPath(args, process);
    match step
    case CheckDestination =>
      var parent := Dirname(args.destination);
      var calls' := calls + [Call.Access(parent)];
      if !AccessOk(s, parent) then Exit(Attempt(Failure(AccessFailed), None, s, calls'))
      else Next(MakeTempDir, s, calls')
    case MakeTempDir =>
      var (s', tmpDir) := MkdtempOp(s, TmpPrefix(env), env.tmpName);
      var calls' := calls + [Call.Mkdtemp(TmpPrefix(env))];
      if tmpDir.None? then Exit(Attempt(Failure(MkdtempFailed), None, s', calls'))
      else Next(ResolveUrl(tmpDir.value), s', calls')
    case ResolveUrl(dir) =>
      // `args.url ?? buildURL(...)`: buildURL runs only when no URL was given
      var url := UrlOf(args, process, env);
      var calls' := if args.url.Some? then calls else calls + [Call.BuildUrl(PlatformOf(args, process), ArchitectureOf(args, process))];
      if url.None? then Exit(Attempt(Failure(BuildUrlFailed), Some(dir), s, calls'))
      else Next(FetchArchive(dir, url.value), s, calls')
    case FetchArchive(dir, url) =>
      var (s', ok) := RequestDownloadOp(s, url, dir, ArchiveFile, env.fetch);
      var calls' := calls + [Call.RequestDownload(url, dir, ArchiveFile)];
      if !ok then Exit(Attempt(Failure(DownloadFailed), Some(dir), s', calls'))
      else Next(ExtractBinary(dir), s', calls')
    case ExtractBinary(dir) =>
      var (s', ok) := DecompressOp(s, dir, ArchiveFile, dir, 1, BinaryFilter(bin[0]), env.unpack);
      var calls' := calls + [Call.Decompress(dir, ArchiveFile, dir, 1)];
      if !ok then Exit(Attempt(Failure(ExtractFailed), Some(dir), s', calls'))
      else Next(SetMode(dir), s', calls')
    case SetMode(dir) =>
      var (s', ok) := ChmodOp(s, dir, bin, cfg.mode, env.chmodOk);
      var calls' := calls + [Call.Chmod(dir, bin, cfg.mode)];
      if !ok then Exit(Attempt(Failure(ChmodFailed), Some(dir), s', calls'))
      else Next(MoveIntoPlace(dir), s', calls')
    case MoveIntoPlace(dir) =>
      var (s', ok) := RenameOp(s, dir, bin, args.destination, env.renameOk);
      Exit(Attempt(if ok then Success(()) else Failure(RenameFailed), Some(dir), s',
                   calls + [Call.Rename(dir, bin, args.destination)]))
  }

  /** The try block from `step` on: each step runs only when the previous
      one succeeded. */
  function TryFrom(step: Step, args: DownloadArgs, process: Process, cfg: Config, env: Oracle,
                   s: FsState, calls: seq<Call>): Attempt
    decreases Remaining(step)
  {
    match Perform(step, args, process, cfg, env, s, calls)
    case Exit(a) => a
    case Next(next, s', calls') => TryFrom(next, args, process, cfg, env, s', calls')
  }

  /** The whole try block, from the filesystem `s` and the trace `calls`. */
  function TryBlock(args: DownloadArgs, process: Process, cfg: Config, env: Oracle, s: FsState, calls: seq<Call>): Attempt {
    TryFrom(CheckDestination, args, process, cfg, env, s, calls)
  }

  /** The outcome of `download`: what it throws or returns, the filesystem
      afterwards, and the trace of calls. */
  datatype Outcome = Outcome(result: Result<(), Failure>, state: FsState, calls: seq<Call>)

  /** `download`: the try block, then the `finally` block, which removes the
      temporary directory if one was created and ignores a failure to do so.
      `calls` is the trace before the call. */
  function Run(args: DownloadArgs, process: Process, cfg: Config, env: Oracle, s: FsState, calls: seq<Call>): Outcome {
    var a := TryBlock(args, process, cfg, env, s, calls);
    match a.tmpDir
    case None => Outcome(a.result, a.state, a.calls)
    case Some(dir) => Outcome(a.result, RmOp(a.state, dir, env.rmOk).0, a.calls + [Call.Rm(dir)])
  }

  /** The try block: returns at the first step that fails, with `tmpDir`
      set once `fs.mkdtemp` has succeeded. */
  method TryBody(m: Machine, args: DownloadArgs, process: Process, cfg: Config, env: Oracle)
    returns (r: Result<(), Failure>, tmpDir: Option<Path>)
    modifies m
    ensures Attempt(r, tmpDir, m.State(), m.calls) == TryBlock(args, process, cfg, env, old(m.State()), old(m.calls))
  {
    tmpDir := None;
    // what the block must produce, from every step on
    ghost var goal := TryBlock(args, process, cfg, env, m.State(), m.calls);

    var writable := m.Access(Dirname(args.destination));
    if !writable {
      return Failure(AccessFailed), tmpDir;
    }
    assert goal == TryFrom(MakeTempDir, args, process, cfg, env, m.State(), m.calls);

    tmpDir := m.Mkdtemp(TmpPrefix(env), env.tmpName);
    if tmpDir.None? {
      return Failure(MkdtempFailed), tmpDir;
    }
    var dir := tmpDir.value;
    assert goal == TryFrom(ResolveUrl(dir), args, process, cfg, env, m.State(), m.calls);

    var url := args.url;
    if url.None? {
      url := m.BuildUrl(PlatformOf(args, process), ArchitectureOf(args, process), env.buildUrl);
    }
    if url.None? {
      return Failure(BuildUrlFailed), tmpDir;
    }
    assert goal == TryFrom(FetchArchive(dir, url.value), args, process, cfg, env, m.State(), m.calls);

    var ok := m.RequestDownload(url.value, dir, ArchiveFile, env.fetch);
    if !ok {
      return Failure(DownloadFailed), tmpDir;
    }
    assert goal == TryFrom(ExtractBinary(dir), args, process, cfg, env, m.State(), m.calls);
    r := Install(m, args, process, cfg, env, dir);
  }

  /** The end of the try block, once the archive is in the temporary
      directory `dir`: extract, chmod and rename, returning at the first failure. */
  method Install(m: Machine, args: DownloadArgs, process: Process, cfg: Config, env: Oracle, dir: Path)
    returns (r: Result<(), Failure>)
    modifies m
    ensures Attempt(r, Some(dir), m.State(), m.calls) ==
      TryFrom(ExtractBinary(dir), args, process, cfg, env, old(m.State()), old(m.calls))
  {
    var bin := BinPath(args, process);
    ghost var goal := TryFrom(ExtractBinary(dir), args, process, cfg, env, m.State(), m.calls);

    var ok := m.Decompress(dir, ArchiveFile, dir, 1, BinaryFilter(bin[0]), env.unpack);
    if !ok {
      return Failure(ExtractFailed);
    }
    assert goal == TryFrom(SetMode(dir), args, process, cfg, env, m.State(), m.calls);

    ok := m.Chmod(dir, bin, cfg.mode, env.chmodOk);
    if !ok {
      return Failure(ChmodFailed);
    }
    assert goal == TryFrom(MoveIntoPlace(dir), args, process, cfg, env, m.State(), m.calls);

    ok := m.Rename(dir, bin, args.destination, env.renameOk);
    r := if ok then Success(()) else Failure(RenameFailed);
  }

  /** `download(args)`. */
  method Download(m: Machine, args: DownloadArgs, process: Process, cfg: Config, env: Oracle)
    returns (r: Result<(), Failure>)
    modifies m
    ensures Outcome(r, m.State(), m.calls) == Run(args, process, cfg, env, old(m.State()), old(m.calls))
  {
    var tmpDir;
    r, tmpDir := TryBody(m, args, process, cfg, env);
    // finally
    if tmpDir.Some? {
      var removed := m.Rm(tmpDir.value, env.rmOk);
      // catch { }: a failed removal is not reported
    }
  }

  // ---------------------------------------------------------------------
  // What every run of `download` guarantees

  /** A parent directory that is not writable stops `download` at the access
      check: nothing is created, nothing is removed, and the filesystem is as
      it was. */
  lemma AccessDeniedCreatesNothing(args: DownloadArgs, process: Process, cfg: Config, env: Oracle, s: FsState)
    requires !AccessOk(s, Dirname(args.destination))
    ensures Run(args, process, cfg, env, s, []) ==
      Outcome(Failure(AccessFailed), s, [Call.Access(Dirname(args.destination))])
  {
  }

  /** From the URL step on, the try block keeps `dir` as its temporary
      directory, works inside it only, never changes which directories are
      writable, and touches the files outside the temporary directories only
      at the destination and only when it succeeds. */
  lemma {:induction false} InsideTempDir(step: Step, args: DownloadArgs, process: Process, cfg: Config, env: Oracle,
                                         s: FsState, calls: seq<Call>)
    requires Remaining(step) <= 5
    decreases Remaining(step)
    ensures var a := TryFrom(step, args, process, cfg, env, s, calls);
      a.tmpDir == Some(step.dir) &&
      a.state.writable == s.writable &&
      a.state.temp - {step.dir} == s.temp - {step.dir} &&
      a.state.files - {args.destination} == s.files - {args.destination} &&
      (a.result.Failure? ==> a.state.files == s.files)
  {
    match Perform(step, args, process, cfg, env, s, calls)
    case Exit(_) =>
    case Next(next, s', calls') =>
      InsideTempDir(next, args, process, cfg, env, s', calls');
  }

  /** The directory `fs.mkdtemp` creates on `s`, if it succeeds. */
  function TempDirOf(env: Oracle, s: FsState): (dir: Option<Path>)
    ensures dir.Some? ==> dir.value !in s.temp && env.tmpName.Some? && dir.value == TmpPrefix(env) + env.tmpName.value
  {
    MkdtempOp(s, TmpPrefix(env), env.tmpName).1
  }

  /** Past the access check and `fs.mkdtemp`, the try block goes on at the
      URL step, in the new empty temporary directory, after exactly those two calls. */
  lemma ReachTempDir(args: DownloadArgs, process: Process, cfg: Config, env: Oracle, s: FsState)
    requires AccessOk(s, Dirname(args.destination)) && TempDirOf(env, s).Some?
    ensures var dir := TempDirOf(env, s).value;
      TryBlock(args, process, cfg, env, s, []) ==
      TryFrom(ResolveUrl(dir), args, process, cfg, env, s.(temp := s.temp[dir := map[]]),
              [Call.Access(Dirname(args.destination)), Call.Mkdtemp(TmpPrefix(env))])
  {
    var c1 := [Call.Access(Dirname(args.destination))];
    assert [] + c1 == c1;
    assert Perform(CheckDestination, args, process, cfg, env, s, []) == Next(MakeTempDir, s, c1);
    assert TryBlock(args, process, cfg, env, s, []) == TryFrom(MakeTempDir, args, process, cfg, env, s, c1);
    var dir := TempDirOf(env, s).value;
    var c2 := [Call.Access(Dirname(args.destination)), Call.Mkdtemp(TmpPrefix(env))];
    assert c1 + [Call.Mkdtemp(TmpPrefix(env))] == c2;
    assert Perform(MakeTempDir, args, process, cfg, env, s, c1) ==
      Next(ResolveUrl(dir), s.(temp := s.temp[dir := map[]]), c2);
  }

  /** Once the temporary directory exists, the last call of the run removes
      it, whatever happened in between; before that, no removal is tried. */
  lemma RemovedOnEveryPath(args: DownloadArgs, process: Process, cfg: Config, env: Oracle, s: FsState)
    ensures var o := Run(args, process, cfg, env, s, []);
      if AccessOk(s, Dirname(args.destination)) && TempDirOf(env, s).Some? then
        |o.calls| > 2 && o.calls[|o.calls| - 1] == Call.Rm(TempDirOf(env, s).value) &&
        (env.rmOk ==> TempDirOf(env, s).value !in o.state.temp)
      else
        forall i :: 0 <= i < |o.calls| ==> !o.calls[i].Rm?
  {
    var parent := Dirname(args.destination);
    if AccessOk(s, parent) && TempDirOf(env, s).Some? {
      var dir := TempDirOf(env, s).value;
      var s1 := s.(temp := s.temp[dir := map[]]);
      var c := [Call.Access(parent), Call.Mkdtemp(TmpPrefix(env))];
      ReachTempDir(args, process, cfg, env, s);
      InsideTempDir(ResolveUrl(dir), args, process, cfg, env, s1, c);
      TraceGrows(ResolveUrl(dir), args, process, cfg, env, s1, c);
    }
  }

  /** The try block only appends to the trace. */
  lemma {:induction false} TraceGrows(step: Step, args: DownloadArgs, process: Process, cfg: Config, env: Oracle,
                                      s: FsState, calls: seq<Call>)
    decreases Remaining(step)
    ensures var a := TryFrom(step, args, process, cfg, env, s, calls);
      |calls| <= |a.calls| && a.calls[..|calls|] == calls
  {
    match Perform(step, args, process, cfg, env, s, calls)
    case Exit(_) =>
    case Next(next, s', calls') =>
      TraceGrows(next, args, process, cfg, env, s', calls');
      assert calls'[..|calls|] == calls;
  }

  /** When removal succeeds, the temporary directories are exactly those
      there were before the call: `download` leaks none and removes no other. */
  lemma NoTempDirLeaks(args: DownloadArgs, process: Process, cfg: Config, env: Oracle, s: FsState)
    requires env.rmOk
    ensures Run(args, process, cfg, env, s, []).state.temp == s.temp
  {
    var parent := Dirname(args.destination);
    if AccessOk(s, parent) && TempDirOf(env, s).Some? {
      var dir := TempDirOf(env, s).value;
      var s1 := s.(temp := s.temp[dir := map[]]);
      var c := [Call.Access(parent), Call.Mkdtemp(TmpPrefix(env))];
      ReachTempDir(args, process, cfg, env, s);
      InsideTempDir(ResolveUrl(dir), args, process, cfg, env, s1, c);
      assert s1.temp - {dir} == s.temp;
    }
  }

  /** The destination is the only path outside the temporary directories
      that `download` changes, it changes only when `download` succeeds, and
      the writable directories never change. */
  lemma DestinationOnlyChangedByRename(args: DownloadArgs, process: Process, cfg: Config, env: Oracle, s: FsState)
    ensures var o := Run(args, process, cfg, env, s, []);
      o.state.files - {args.destination} == s.files - {args.destination} &&
      (o.result.Failure? ==> o.state.files == s.files) &&
      o.state.writable == s.writable
  {
    var parent := Dirname(args.destination);
    if AccessOk(s, parent) && TempDirOf(env, s).Some? {
      var dir := TempDirOf(env, s).value;
      var s1 := s.(temp := s.temp[dir := map[]]);
      var c := [Call.Access(parent), Call.Mkdtemp(TmpPrefix(env))];
      ReachTempDir(args, process, cfg, env, s);
      InsideTempDir(ResolveUrl(dir), args, process, cfg, env, s1, c);
    }
  }

  /** The try block never looks at whether removal will succeed. */
  lemma {:induction false} TryIgnoresRm(step: Step, args: DownloadArgs, process: Process, cfg: Config, env: Oracle,
                                        s: FsState, calls: seq<Call>, rmOk: bool)
    decreases Remaining(step)
    ensures TryFrom(step, args, process, cfg, env, s, calls) ==
            TryFrom(step, args, process, cfg, env.(rmOk := rmOk), s, calls)
  {
    var env' := env.(rmOk := rmOk);
    assert Perform(step, args, process, cfg, env, s, calls) == Perform(step, args, process, cfg, env', s, calls);
    match Perform(step, args, process, cfg, env, s, calls)
    case Exit(_) =>
    case Next(next, s', calls') =>
      TryIgnoresRm(next, args, process, cfg, env, s', calls', rmOk);
  }

  /** A failure to remove the temporary directory is swallowed: what
      `download` returns or throws, and the calls it makes, are the same
      whether the removal succeeds or not. */
  lemma CleanupFailureSwallowed(args: DownloadArgs, process: Process, cfg: Config, env: Oracle, s: FsState)
    ensures var failing := Run(args, process, cfg, env.(rmOk := false), s, []);
      var succeeding := Run(args, process, cfg, env.(rmOk := true), s, []);
      failing.result == succeeding.result && failing.calls == succeeding.calls
  {
    TryIgnoresRm(CheckDestination, args, process, cfg, env.(rmOk := false), s, [], true);
    assert env.(rmOk := false).(rmOk := true) == env.(rmOk := true);
  }

  /** With an explicit URL, the try block from the URL step on fetches that
      URL and never calls `buildURL`. */
  lemma {:induction false} GivenUrlOnly(step: Step, args: DownloadArgs, process: Process, cfg: Config, env: Oracle,
                                        s: FsState, calls: seq<Call>, u: Url)
    requires args.url == Some(u)
    requires Remaining(step) <= 5
    requires step.FetchArchive? ==> step.url == u
    decreases Remaining(step)
    ensures var a := TryFrom(step, args, process, cfg, env, s, calls);
      |calls| <= |a.calls| &&
      forall i :: |calls| <= i < |a.calls| ==>
        !a.calls[i].BuildUrl? && (a.calls[i].RequestDownload? ==> a.calls[i].url == u)
  {
    match Perform(step, args, process, cfg, env, s, calls)
    case Exit(_) =>
    case Next(next, s', calls') =>
      GivenUrlOnly(next, args, process, cfg, env, s', calls', u);
      TraceGrows(next, args, process, cfg, env, s', calls');
      var a := TryFrom(next, args, process, cfg, env, s', calls');
      forall i | |calls| <= i < |calls'|
        ensures !a.calls[i].BuildUrl? && (a.calls[i].RequestDownload? ==> a.calls[i].url == u)
      {
        assert a.calls[i] == a.calls[..|calls'|][i] == calls'[i];
      }
  }

  /** An explicit URL is used as given: every download is of that URL, and
      `buildURL` is never called. */
  lemma ExplicitUrlUsedVerbatim(args: DownloadArgs, process: Process, cfg: Config, env: Oracle, s: FsState)
    requires args.url.Some?
    ensures var o := Run(args, process, cfg, env, s, []);
      forall i :: 0 <= i < |o.calls| ==>
        !o.calls[i].BuildUrl? && (o.calls[i].RequestDownload? ==> o.calls[i].url == args.url.value)
  {
    if AccessOk(s, Dirname(args.destination)) && TempDirOf(env, s).Some? {
      var dir := TempDirOf(env, s).value;
      ReachTempDir(args, process, cfg, env, s);
      var s1 := s.(temp := s.temp[dir := map[]]);
      var c := [Call.Access(Dirname(args.destination)), Call.Mkdtemp(TmpPrefix(env))];
      GivenUrlOnly(ResolveUrl(dir), args, process, cfg, env, s1, c, args.url.value);
      TraceGrows(ResolveUrl(dir), args, process, cfg, env, s1, c);
      InsideTempDir(ResolveUrl(dir), args, process, cfg, env, s1, c);
      var a := TryFrom(ResolveUrl(dir), args, process, cfg, env, s1, c);
      assert a.calls[0] == a.calls[..2][0] && a.calls[1] == a.calls[..2][1];
    }
  }

  /** Past `fs.mkdtemp`, the URL step and the download, the try block goes
      on at extraction, with the archive as the only file of the new
      temporary directory. */
  lemma ReachArchive(args: DownloadArgs, process: Process, cfg: Config, env: Oracle, s: FsState)
    requires AccessOk(s, Dirname(args.destination)) && TempDirOf(env, s).Some?
    requires UrlOf(args, process, env).Some? && env.fetch(UrlOf(args, process, env).value).Some?
    ensures var dir := TempDirOf(env, s).value;
      var url := UrlOf(args, process, env).value;
      var archive := File(env.fetch(url).value, NewFileMode);
      TryBlock(args, process, cfg, env, s, []) ==
      TryFrom(ExtractBinary(dir), args, process, cfg, env, s.(temp := s.temp[dir := map[ArchiveFile := archive]]),
              [Call.Access(Dirname(args.destination)), Call.Mkdtemp(TmpPrefix(env))] +
              (if args.url.None? then [Call.BuildUrl(PlatformOf(args, process), ArchitectureOf(args, process))] else []) +
              [Call.RequestDownload(url, dir, ArchiveFile)])
  {
    ReachTempDir(args, process, cfg, env, s);
    var dir := TempDirOf(env, s).value;
    var url := UrlOf(args, process, env).value;
    var s1 := s.(temp := s.temp[dir := map[]]);
    var c1 := [Call.Access(Dirname(args.destination)), Call.Mkdtemp(TmpPrefix(env))];
    var c2 := c1 + (if args.url.None? then [Call.BuildUrl(PlatformOf(args, process), ArchitectureOf(args, process))] else []);
    assert args.url.Some? ==> c2 == c1;
    assert Perform(ResolveUrl(dir), args, process, cfg, env, s1, c1) == Next(FetchArchive(dir, url), s1, c2);
    var archive := File(env.fetch(url).value, NewFileMode);
    assert s1.temp[dir][ArchiveFile := archive] == map[ArchiveFile := archive];
    var s2 := s.(temp := s.temp[dir := map[ArchiveFile := archive]]);
    assert Perform(FetchArchive(dir, url), args, process, cfg, env, s1, c2) ==
           Next(ExtractBinary(dir), s2, c2 + [Call.RequestDownload(url, dir, ArchiveFile)]);
  }

  /** Extraction, chmod and rename in a temporary directory that holds the
      archive but no binary yet: which step fails, and what ends up at the
      destination when none does. */
  lemma InstallFromArchive(args: DownloadArgs, process: Process, cfg: Config, env: Oracle,
                           s: FsState, calls: seq<Call>, dir: Path)
    requires dir in s.temp && ArchiveFile in s.temp[dir] && BinPath(args, process) !in s.temp[dir]
    ensures var a := TryFrom(ExtractBinary(dir), args, process, cfg, env, s, calls);
      var entries := env.unpack(s.temp[dir][ArchiveFile].data);
      var e := if entries.Some? then LastBinary(entries.value, BinArchive(PlatformOf(args, process))) else None;
      a.result ==
        (if entries.None? then Failure(ExtractFailed)
         else if e.None? || !env.chmodOk then Failure(ChmodFailed)
         else if !env.renameOk then Failure(RenameFailed)
         else Success(())) &&
      (a.result.Success? ==> a.state.files == s.files[args.destination := File(e.value.data, cfg.mode)])
  {
    var bin := BinArchive(PlatformOf(args, process));
    var contents := s.temp[dir];
    var entries := env.unpack(contents[ArchiveFile].data);
    if entries.Some? {
      var e := LastBinary(entries.value, bin);
      var written := WriteAll(contents, Unpacked(entries.value, 1, BinaryFilter(bin)));
      ExtractKeepsOnlyBinary(contents, entries.value, bin);
      var s1 := s.(temp := s.temp[dir := written]);
      var c1 := calls + [Call.Decompress(dir, ArchiveFile, dir, 1)];
      assert Perform(ExtractBinary(dir), args, process, cfg, env, s, calls) == Next(SetMode(dir), s1, c1);
      var c2 := c1 + [Call.Chmod(dir, [bin], cfg.mode)];
      if e.Some? && env.chmodOk {
        var s2 := s1.(temp := s1.temp[dir := written[[bin] := File(e.value.data, cfg.mode)]]);
        assert Perform(SetMode(dir), args, process, cfg, env, s1, c1) == Next(MoveIntoPlace(dir), s2, c2);
        assert TryFrom(ExtractBinary(dir), args, process, cfg, env, s, calls) ==
               TryFrom(MoveIntoPlace(dir), args, process, cfg, env, s2, c2);
        assert s2.temp[dir][[bin]] == File(e.value.data, cfg.mode);
      } else {
        assert e.None? ==> written == contents;
        assert Perform(SetMode(dir), args, process, cfg, env, s1, c1) == Exit(Attempt(Failure(ChmodFailed), Some(dir), s1, c2));
      }
    }
  }

  /** The archive entry `download` installs on `s`, or None when it fails:
      every collaborator must succeed, and the archive must hold an entry
      that is the binary's name once one leading directory is stripped (a
      top-level `shellcheck` counts too; of several such entries, the last
      one wins). */
  function InstalledEntry(args: DownloadArgs, process: Process, env: Oracle, s: FsState): Option<Entry> {
    var url := UrlOf(args, process, env);
    if !AccessOk(s, Dirname(args.destination)) || TempDirOf(env, s).None? || url.None? ||
       !env.chmodOk || !env.renameOk then None
    else
      match env.fetch(url.value)
      case None => None
      case Some(bytes) =>
        match env.unpack(bytes)
        case None => None
        case Some(entries) => LastBinary(entries, BinArchive(PlatformOf(args, process)))
  }

  /** `download` succeeds exactly when every step can, and then the
      destination holds the binary from the archive with mode `config.mode`
      and no other file has changed. */
  lemma InstallsTheBinary(args: DownloadArgs, process: Process, cfg: Config, env: Oracle, s: FsState)
    ensures var o := Run(args, process, cfg, env, s, []);
      var e := InstalledEntry(args, process, env, s);
      (o.result.Success? <==> e.Some?) &&
      (e.Some? ==> o.state.files == s.files[args.destination := File(e.value.data, cfg.mode)])
  {
    var url := UrlOf(args, process, env);
    if AccessOk(s, Dirname(args.destination)) && TempDirOf(env, s).Some? {
      if url.Some? && env.fetch(url.value).Some? {
        InstallsFromArchive(args, process, cfg, env, s);
      } else {
        NoUrlOrNoArchiveFails(args, process, cfg, env, s);
      }
    }
  }

  /** Once the archive is downloaded, the try block succeeds exactly when
      the entry to install exists, and then puts it at the destination. */
  lemma InstallsFromArchive(args: DownloadArgs, process: Process, cfg: Config, env: Oracle, s: FsState)
    requires AccessOk(s, Dirname(args.destination)) && TempDirOf(env, s).Some?
    requires UrlOf(args, process, env).Some? && env.fetch(UrlOf(args, process, env).value).Some?
    ensures var a := TryBlock(args, process, cfg, env, s, []);
      var e := InstalledEntry(args, process, env, s);
      a.tmpDir == TempDirOf(env, s) &&
      (a.result.Success? <==> e.Some?) &&
      (e.Some? ==> a.state.files == s.files[args.destination := File(e.value.data, cfg.mode)])
  {
    var url := UrlOf(args, process, env).value;
    ReachArchive(args, process, cfg, env, s);
    var dir := TempDirOf(env, s).value;
    var archive := File(env.fetch(url).value, NewFileMode);
    var s2 := s.(temp := s.temp[dir := map[ArchiveFile := archive]]);
    assert BinPath(args, process) != ArchiveFile;
    var c := [Call.Access(Dirname(args.destination)), Call.Mkdtemp(TmpPrefix(env))] +
             (if args.url.None? then [Call.BuildUrl(PlatformOf(args, process), ArchitectureOf(args, process))] else []) +
             [Call.RequestDownload(url, dir, ArchiveFile)];
    InstallFromArchive(args, process, cfg, env, s2, c, dir);
    InsideTempDir(ExtractBinary(dir), args, process, cfg, env, s2, c);
  }

  /** Without a URL, or without an answer from the network, `download`
      throws the error of that step. */
  lemma NoUrlOrNoArchiveFails(args: DownloadArgs, process: Process, cfg: Config, env: Oracle, s: FsState)
    requires AccessOk(s, Dirname(args.destination)) && TempDirOf(env, s).Some?
    requires UrlOf(args, process, env).None? || env.fetch(UrlOf(args, process, env).value).None?
    ensures Run(args, process, cfg, env, s, []).result ==
      Failure(if UrlOf(args, process, env).None? then BuildUrlFailed else DownloadFailed)
  {
    ReachTempDir(args, process, cfg, env, s);
    var url := UrlOf(args, process, env);
    var dir := TempDirOf(env, s).value;
    var s1 := s.(temp := s.temp[dir := map[]]);
    var c1 := [Call.Access(Dirname(args.destination)), Call.Mkdtemp(TmpPrefix(env))];
    match Perform(ResolveUrl(dir), args, process, cfg, env, s1, c1)
    case Exit(a) =>
      assert a.result == Failure(BuildUrlFailed);
    case Next(next, s', c2) =>
      assert next == FetchArchive(dir, url.value) && s' == s1;
      assert Perform(next, args, process, cfg, env, s1, c2).attempt.result == Failure(DownloadFailed);
  }

  /** An archive without the binary is not caught by extraction, which
      writes nothing and succeeds; `download` then fails at `fs.chmod`. */
  lemma MissingBinarySurfacesAtChmod(args: DownloadArgs, process: Process, cfg: Config, env: Oracle, s: FsState)
    requires AccessOk(s, Dirname(args.destination)) && TempDirOf(env, s).Some?
    requires UrlOf(args, process, env).Some? && env.fetch(UrlOf(args, process, env).value).Some?
    requires var entries := env.unpack(env.fetch(UrlOf(args, process, env).value).value);
      entries.Some? && LastBinary(entries.value, BinArchive(PlatformOf(args, process))).None?
    ensures Run(args, process, cfg, env, s, []).result == Failure(ChmodFailed)
  {
    ReachArchive(args, process, cfg, env, s);
    var dir := TempDirOf(env, s).value;
    var url := UrlOf(args, process, env).value;
    var s2 := s.(temp := s.temp[dir := map[ArchiveFile := File(env.fetch(url).value, NewFileMode)]]);
    assert BinPath(args, process) != ArchiveFile;
    var c := [Call.Access(Dirname(args.destination)), Call.Mkdtemp(TmpPrefix(env))] +
             (if args.url.None? then [Call.BuildUrl(PlatformOf(args, process), ArchitectureOf(args, process))] else []) +
             [Call.RequestDownload(url, dir, ArchiveFile)];
    InstallFromArchive(args, process, cfg, env, s2, c, dir);
  }

  /** `f` is the error thrown by the step that makes the call `c`. */
  predicate Blames(c: Call, f: Failure) {
    match f
    case AccessFailed => c.Access?
    case MkdtempFailed => c.Mkdtemp?
    case BuildUrlFailed => c.BuildUrl?
    case DownloadFailed => c.RequestDownload?
    case ExtractFailed => c.Decompress?
    case ChmodFailed => c.Chmod?
    case RenameFailed => c.Rename?
  }

  /** The temporary directory a successful `fs.mkdtemp` creates. */
  function PlanDir(env: Oracle): Path {
    TmpPrefix(env) + env.tmpName.GetOr("")
  }

  /** The calls of a run in which every step of the try block succeeds, in
      source order: the access check, mkdtemp, `buildURL` only when no URL
      was given, the download, extraction, chmod and rename. */
  function Plan(args: DownloadArgs, process: Process, cfg: Config, env: Oracle): seq<Call> {
    var dir := PlanDir(env);
    var bin := BinPath(args, process);
    [Call.Access(Dirname(args.destination)), Call.Mkdtemp(TmpPrefix(env))] +
    (if args.url.None? then [Call.BuildUrl(PlatformOf(args, process), ArchitectureOf(args, process))] else []) +
    [Call.RequestDownload(UrlOf(args, process, env).GetOr(""), dir, ArchiveFile),
     Call.Decompress(dir, ArchiveFile, dir, 1),
     Call.Chmod(dir, bin, cfg.mode),
     Call.Rename(dir, bin, args.destination)]
  }

  /** How many calls of the plan come before `step`. */
  function Done(step: Step, args: DownloadArgs): nat {
    var b := if args.url.None? then 1 else 0;
    match step
    case CheckDestination => 0
    case MakeTempDir => 1
    case ResolveUrl(_) => 2
    case FetchArchive(_, _) => 2 + b
    case ExtractBinary(_) => 3 + b
    case SetMode(_) => 4 + b
    case MoveIntoPlace(_) => 5 + b
  }

  /** `step` is the one the plan reaches: in the plan's temporary directory,
      with the plan's URL. */
  predicate OnPlan(step: Step, args: DownloadArgs, process: Process, env: Oracle) {
    (Remaining(step) <= 5 ==> step.dir == PlanDir(env)) &&
    (step.FetchArchive? ==> UrlOf(args, process, env) == Some(step.url))
  }

  /** The plan, call by call. */
  lemma PlanCalls(args: DownloadArgs, process: Process, cfg: Config, env: Oracle)
    ensures var p := Plan(args, process, cfg, env);
      var b := if args.url.None? then 1 else 0;
      var dir := PlanDir(env);
      var bin := BinPath(args, process);
      |p| == 6 + b &&
      p[0] == Call.Access(Dirname(args.destination)) &&
      p[1] == Call.Mkdtemp(TmpPrefix(env)) &&
      (args.url.None? ==> p[2] == Call.BuildUrl(PlatformOf(args, process), ArchitectureOf(args, process))) &&
      p[2 + b] == Call.RequestDownload(UrlOf(args, process, env).GetOr(""), dir, ArchiveFile) &&
      p[3 + b] == Call.Decompress(dir, ArchiveFile, dir, 1) &&
      p[4 + b] == Call.Chmod(dir, bin, cfg.mode) &&
      p[5 + b] == Call.Rename(dir, bin, args.destination)
  {
  }

  /** One step on the plan: it makes the plan's next call (the URL step
      with a given URL makes none), and either leads to the next step on the
      plan or ends the block, with an error that blames that call. */
  lemma PlanStep(step: Step, args: DownloadArgs, process: Process, cfg: Config, env: Oracle,
                 s: FsState, calls: seq<Call>)
    requires OnPlan(step, args, process, env)
    requires calls == Plan(args, process, cfg, env)[..Done(step, args)]
    ensures var p := Plan(args, process, cfg, env);
      var k := Done(step, args);
      match Perform(step, args, process, cfg, env, s, calls)
      case Exit(a) =>
        k < |p| && a.calls == p[..k + 1] &&
        (a.result.Success? ==> k + 1 == |p|) &&
        (a.result.Failure? ==> Blames(p[k], a.result.error))
      case Next(next, _, calls') =>
        OnPlan(next, args, process, env) && calls' == p[..Done(next, args)]
  {
    var p := Plan(args, process, cfg, env);
    var k := Done(step, args);
    PlanCalls(args, process, cfg, env);
    assert k < |p|;
    assert p[..k] + [p[k]] == p[..k + 1];
  }

  /** From a step on the plan, the try block makes the next calls of the
      plan and stops at the first that fails. */
  lemma {:induction false} FollowsPlan(step: Step, args: DownloadArgs, process: Process, cfg: Config, env: Oracle,
                                       s: FsState, calls: seq<Call>)
    requires OnPlan(step, args, process, env)
    requires calls == Plan(args, process, cfg, env)[..Done(step, args)]
    decreases Remaining(step)
    ensures var a := TryFrom(step, args, process, cfg, env, s, calls);
      var p := Plan(args, process, cfg, env);
      exists n :: 1 <= n <= |p| && a.calls == p[..n] &&
        (a.result.Success? ==> n == |p|) &&
        (a.result.Failure? ==> Blames(p[n - 1], a.result.error))
  {
    PlanStep(step, args, process, cfg, env, s, calls);
    match Perform(step, args, process, cfg, env, s, calls)
    case Exit(a) =>
      var n := Done(step, args) + 1;
      assert a.calls == Plan(args, process, cfg, env)[..n];
    case Next(next, s', calls') =>
      FollowsPlan(next, args, process, cfg, env, s', calls');
      assert TryFrom(step, args, process, cfg, env, s, calls) == TryFrom(next, args, process, cfg, env, s', calls');
  }

  /** The steps run in source order and a failure stops the rest: the calls
      of a run are a prefix of the plan, ending at the success of the rename
      or at the call whose error `download` throws, followed by the removal
      of the temporary directory when there is one. */
  lemma StepsRunInOrder(args: DownloadArgs, process: Process, cfg: Config, env: Oracle, s: FsState)
    ensures var o := Run(args, process, cfg, env, s, []);
      var p := Plan(args, process, cfg, env);
      exists n :: 1 <= n <= |p| &&
        (o.calls == p[..n] || o.calls == p[..n] + [Call.Rm(PlanDir(env))]) &&
        (o.result.Success? ==> n == |p|) &&
        (o.result.Failure? ==> Blames(p[n - 1], o.result.error))
  {
    var p := Plan(args, process, cfg, env);
    FollowsPlan(CheckDestination, args, process, cfg, env, s, []);
    RemovedOnEveryPath(args, process, cfg, env, s);
    var a := TryBlock(args, process, cfg, env, s, []);
    var o := Run(args, process, cfg, env, s, []);
    var n :| 1 <= n <= |p| && a.calls == p[..n] &&
             (a.result.Success? ==> n == |p|) &&
             (a.result.Failure? ==> Blames(p[n - 1], a.result.error));
    if a.tmpDir.Some? {
      assert o.calls == a.calls + [Call.Rm(a.tmpDir.value)];
      assert o.calls[|o.calls| - 1] == Call.Rm(a.tmpDir.value);
    }
  }

  /** Installing twice in a row, with the collaborators answering as before
      and the temporary directory removed, ends in the same state as
      installing once: the second run depends on nothing the first left. */
  lemma InstallIsIdempotent(args: DownloadArgs, process: Process, cfg: Config, env: Oracle, s: FsState)
    requires env.rmOk
    requires Run(args, process, cfg, env, s, []).result.Success?
    ensures var first := Run(args, process, cfg, env, s, []);
      var second := Run(args, process, cfg, env, first.state, []);
      second.result.Success? && second.state == first.state
  {
    var first := Run(args, process, cfg, env, s, []);
    NoTempDirLeaks(args, process, cfg, env, s);
    DestinationOnlyChangedByRename(args, process, cfg, env, s);
    InstallsTheBinary(args, process, cfg, env, s);
    assert InstalledEntry(args, process, env, first.state) == InstalledEntry(args, process, env, s);
    NoTempDirLeaks(args, process, cfg, env, first.state);
    DestinationOnlyChangedByRename(args, process, cfg, env, first.state);
    InstallsTheBinary(args, process, cfg, env, first.state);
  }
}
