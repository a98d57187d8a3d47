/** The world `download` acts on: the filesystem (`node:fs/promises`), the
    URL builder and HTTP client of `~/utils`, and the `decompress` library.
    Each collaborator is one operation on an abstract filesystem state; where
    the real outcome depends on things outside the model (the network, the
    kernel, the archive decoders, the random name mkdtemp picks), that outcome
    is a parameter. The class `Machine` holds the state and records every call
    it receives, so that the order of calls can be stated. */
module Effects {
  import opened Wrappers

  type Path = string
  type Url = string
  /** A permission mode such as 0o755. */
  type Mode = nat
  type Bytes = seq<bv8>
  /** A path inside a temporary directory, as its components. */
  type Rel = seq<string>

  /** The mode a newly written file gets (0o666; the umask is not modelled). */
  const NewFileMode: Mode := 438

  datatype File = File(data: Bytes, mode: Mode)

  /** An archive entry as an archive decoder lists it. */
  datatype Entry = Entry(path: seq<string>, data: Bytes, mode: Mode)

  /** The filesystem: ordinary files by path, the live temporary directories
      with their contents, and the directories the process may write to. */
  datatype FsState = FsState(files: map<Path, File>, temp: map<Path, map<Rel, File>>, writable: set<Path>)

  /** One call `download` makes to a collaborator. */
  datatype Call =
    | Access(dir: Path)
    | Mkdtemp(prefix: Path)
    | BuildUrl(platform: string, architecture: string)
    | RequestDownload(url: Url, dir: Path, file: Rel)
    | Decompress(dir: Path, archive: Rel, out: Path, strip: nat)
    | Chmod(dir: Path, file: Rel, mode: Mode)
    | Rename(dir: Path, file: Rel, destination: Path)
    | Rm(dir: Path)

  /** `fs.access(dir, W_OK)` resolves iff `dir` is writable. */
  predicate AccessOk(s: FsState, dir: Path) {
    dir in s.writable
  }

  /** `fs.mkdtemp(prefix)`: creates the empty directory `prefix + name`, where
      `name` is the random suffix (None when the call fails); a name already
      in use fails. */
  function MkdtempOp(s: FsState, prefix: Path, name: Option<string>): (FsState, Option<Path>) {
    match name
    case None => (s, None)
    case Some(x) =>
      var dir := prefix + x;
      if dir in s.temp then (s, None) else (s.(temp := s.temp[dir := map[]]), Some(dir))
  }

  /** `requestDownload({url, destination})`: writes what `fetch` returns for
      `url` to `file` in `dir`; None from `fetch` is a transport failure. */
  function RequestDownloadOp(s: FsState, url: Url, dir: Path, file: Rel, fetch: Url -> Option<Bytes>): (FsState, bool) {
    if dir in s.temp && fetch(url).Some? then
      (s.(temp := s.temp[dir := s.temp[dir][file := File(fetch(url).value, NewFileMode)]]), true)
    else
      (s, false)
  }

  /** The `strip` option of `decompress`: drop up to `n` leading components,
      never the last one. */
  function StripDirs(path: seq<string>, n: nat): seq<string> {
    if n == 0 || |path| <= 1 then path else StripDirs(path[1..], n - 1)
  }

  /** The entries `decompress` writes: each entry with its path stripped, kept
      when `filter` accepts the stripped entry, in archive order. */
  function Unpacked(entries: seq<Entry>, strip: nat, filter: Entry -> bool): seq<Entry> {
    if entries == [] then []
    else
      var e := entries[0].(path := StripDirs(entries[0].path, strip));
      (if filter(e) then [e] else []) + Unpacked(entries[1..], strip, filter)
  }

  /** Writes `entries` one after another into a directory's contents. */
  function WriteAll(contents: map<Rel, File>, entries: seq<Entry>): map<Rel, File>
    decreases |entries|
  {
    if entries == [] then contents
    else WriteAll(contents[entries[0].path := File(entries[0].data, entries[0].mode)], entries[1..])
  }

  /** `decompress(archive, out, {strip, filter})`: `unpack` decodes the
      archive's bytes (None for a malformed archive); the kept entries are
      written into `out`. A filter that keeps nothing is not an error. */
  function DecompressOp(s: FsState, dir: Path, archive: Rel, out: Path, strip: nat,
                        filter: Entry -> bool, unpack: Bytes -> Option<seq<Entry>>): (FsState, bool) {
    if dir !in s.temp || archive !in s.temp[dir] || out !in s.temp then (s, false)
    else
      match unpack(s.temp[dir][archive].data)
      case None => (s, false)
      case Some(entries) =>
        (s.(temp := s.temp[out := WriteAll(s.temp[out], Unpacked(entries, strip, filter))]), true)
  }

  /** `fs.chmod(path, mode)`: fails when the file is missing or the kernel
      refuses (`ok` false). */
  function ChmodOp(s: FsState, dir: Path, file: Rel, mode: Mode, ok: bool): (FsState, bool) {
    if ok && dir in s.temp && file in s.temp[dir] then
      (s.(temp := s.temp[dir := s.temp[dir][file := s.temp[dir][file].(mode := mode)]]), true)
    else
      (s, false)
  }

  /** `fs.rename(from, destination)`: moves the file out of the temporary
      directory in one step; fails when it is missing or the kernel refuses. */
  function RenameOp(s: FsState, dir: Path, file: Rel, destination: Path, ok: bool): (FsState, bool) {
    if ok && dir in s.temp && file in s.temp[dir] then
      (s.(temp := s.temp[dir := s.temp[dir] - {file}],
          files := s.files[destination := s.temp[dir][file]]), true)
    else
      (s, false)
  }

  /** `fs.rm(dir, {recursive: true, force: true})`: removes the directory and
      all it holds; a missing directory is not an error. */
  function RmOp(s: FsState, dir: Path, ok: bool): (FsState, bool) {
    if ok then (s.(temp := s.temp - {dir}), true) else (s, false)
  }

  /** The machine `download` runs on, with the calls it has received so far. */
  class Machine {
    var files: map<Path, File>
    var temp: map<Path, map<Rel, File>>
    var writable: set<Path>
    ghost var calls: seq<Call>

    function State(): FsState
      reads this
    {
      FsState(files, temp, writable)
    }

    constructor (s: FsState)
      ensures State() == s && calls == []
    {
      files, temp, writable := s.files, s.temp, s.writable;
      calls := [];
    }

    method Access(dir: Path) returns (ok: bool)
      modifies this`calls
      ensures ok == AccessOk(old(State()), dir)
      ensures calls == old(calls) + [Call.Access(dir)]
    {
      ok := dir in writable;
      calls := calls + [Call.Access(dir)];
    }

    method Mkdtemp(prefix: Path, name: Option<string>) returns (dir: Option<Path>)
      modifies this
      ensures (State(), dir) == MkdtempOp(old(State()), prefix, name)
      ensures calls == old(calls) + [Call.Mkdtemp(prefix)]
    {
      dir := None;
      if name.Some? && prefix + name.value !in temp {
        dir := Some(prefix + name.value);
        temp := temp[dir.value := map[]];
      }
      calls := calls + [Call.Mkdtemp(prefix)];
    }

    method BuildUrl(platform: string, architecture: string, build: (string, string) -> Option<Url>)
      returns (url: Option<Url>)
      modifies this`calls
      ensures url == build(platform, architecture)
      ensures calls == old(calls) + [Call.BuildUrl(platform, architecture)]
    {
      url := build(platform, architecture);
      calls := calls + [Call.BuildUrl(platform, architecture)];
    }

    method RequestDownload(url: Url, dir: Path, file: Rel, fetch: Url -> Option<Bytes>) returns (ok: bool)
      modifies this
      ensures (State(), ok) == RequestDownloadOp(old(State()), url, dir, file, fetch)
      ensures calls == old(calls) + [Call.RequestDownload(url, dir, file)]
    {
      var body := fetch(url);
      ok := dir in temp && body.Some?;
      if ok {
        temp := temp[dir := temp[dir][file := File(body.value, NewFileMode)]];
      }
      calls := calls + [Call.RequestDownload(url, dir, file)];
    }

    method Decompress(dir: Path, archive: Rel, out: Path, strip: nat,
                      filter: Entry -> bool, unpack: Bytes -> Option<seq<Entry>>) returns (ok: bool)
      modifies this
      ensures (State(), ok) == DecompressOp(old(State()), dir, archive, out, strip, filter, unpack)
      ensures calls == old(calls) + [Call.Decompress(dir, archive, out, strip)]
    {
      ok := false;
      if dir in temp && archive in temp[dir] && out in temp {
        var decoded := unpack(temp[dir][archive].data);
        if decoded.Some? {
          temp := temp[out := WriteAll(temp[out], Unpacked(decoded.value, strip, filter))];
          ok := true;
        }
      }
      calls := calls + [Call.Decompress(dir, archive, out, strip)];
    }

    method Chmod(dir: Path, file: Rel, mode: Mode, succeeds: bool) returns (ok: bool)
      modifies this
      ensures (State(), ok) == ChmodOp(old(State()), dir, file, mode, succeeds)
      ensures calls == old(calls) + [Call.Chmod(dir, file, mode)]
    {
      ok := succeeds && dir in temp && file in temp[dir];
      if ok {
        temp := temp[dir := temp[dir][file := temp[dir][file].(mode := mode)]];
      }
      calls := calls + [Call.Chmod(dir, file, mode)];
    }

    method Rename(dir: Path, file: Rel, destination: Path, succeeds: bool) returns (ok: bool)
      modifies this
      ensures (State(), ok) == RenameOp(old(State()), dir, file, destination, succeeds)
      ensures calls == old(calls) + [Call.Rename(dir, file, destination)]
    {
      ok := succeeds && dir in temp && file in temp[dir];
      if ok {
        files := files[destination := temp[dir][file]];
        temp := temp[dir := temp[dir] - {file}];
      }
      calls := calls + [Call.Rename(dir, file, destination)];
    }

    method Rm(dir: Path, succeeds: bool) returns (ok: bool)
      modifies this
      ensures (State(), ok) == RmOp(old(State()), dir, succeeds)
      ensures calls == old(calls) + [Call.Rm(dir)]
    {
      ok := succeeds;
      if ok {
        temp := temp - {dir};
      }
      calls := calls + [Call.Rm(dir)];
    }
  }
}
