# shellcheck installer core, modelled in Dafny

This project models the two pieces of logic at the heart of the ShellCheck
installer:

- **The architecture resolver** (`shellCheckArchitecture`). It defaults the
  platform and CPU architecture to the host's values, looks the platform up in
  the static `config.binaries` table, and returns the vendor token of the first
  `(host architecture, vendor token)` pair whose host architecture matches. It
  throws `ArchitectureError` when the platform is missing or no pair matches.
- **The install pipeline** (`download`). It runs these steps in order:
  1. check that the destination's directory is writable;
  2. create a temporary directory;
  3. take the URL given, or build one;
  4. download the archive;
  5. extract the binary (strip one leading component, keep the exact name);
  6. chmod it to `config.mode`;
  7. rename it onto the destination.

  The first failure stops the rest. A `finally` block removes the temporary
  directory once it exists and swallows any error from doing so.

Files:

- `wrappers.dfy`: `Option` (an optional value, `undefined` in the source) and
  `Result` (a value or a thrown error).
- `architecture.dfy`: the resolver as a pure function over an abstract
  `map<Platform, Binary>`, with the first-match, soundness and completeness
  lemmas.
- `effects.dfy`: the world `download` acts on.
  - An abstract filesystem state holds the ordinary files, the live temporary
    directories with their contents, and the writable directories.
  - Each collaborator (`fs.access`, `fs.mkdtemp`, `buildURL`,
    `requestDownload`, `decompress`, `fs.chmod`, `fs.rename`, `fs.rm`) is one
    operation on that state.
  - The class `Machine` holds the state in fields that its methods update. It
    also keeps a ghost trace of the calls it has received.
- `download.dfy`: the pipeline.
  - `Run` is the pure specification: the try block is a chain of steps
    (`Perform`, `TryFrom`), followed by the `finally` block.
  - `Download` is the imperative method on a `Machine`, proved equal to `Run`.
    Two helper methods share its try block (`TryBody` up to the download,
    `Install` for the rest), so that each proof stays small.
  - The lemmas state what every run guarantees.

The answers of everything outside the model are fields of an `Oracle` value:
- the temporary directory root and mkdtemp's random suffix;
- `buildURL`;
- the network;
- the archive decoders;
- whether the kernel lets chmod, rename and rm succeed.

Every property is stated for all oracles.

Two behaviours of the code are worth stating on their own:

- **A missing binary fails at chmod, not at extraction.** `decompress` with a
  filter that keeps nothing writes nothing and succeeds, and `fs.chmod` then
  throws (src/helpers/download.ts:69-79). See `MissingBinarySurfacesAtChmod`.
- **`download` does not call `shellCheckArchitecture`.** It passes the
  defaulted platform and architecture to `buildURL`
  (src/helpers/download.ts:60-61), which is an oracle here.

## Model

| member | source | states |
|---|---|---|
| `Architecture.ResolveOptions` | src/utils/shellCheckArchitecture.ts:26-29 | an omitted architecture or platform (or omitted arguments) takes the host's value; an explicit one is kept |
| `Architecture.Find` | src/utils/shellCheckArchitecture.ts:31-33 | `find` returns nothing exactly when no pair has the architecture, and otherwise the pair at the first index whose architecture matches |
| `Architecture.ShellCheckArchitecture` | src/utils/shellCheckArchitecture.ts:25-37 | throws exactly when the resolved platform is not in the table or no pair of it matches; a returned token is the second component of the first matching pair |
| `Architecture.FirstMatchWins` | src/utils/shellCheckArchitecture.ts:31-33 | if index i holds the first matching pair, the result is that pair's token, whatever later pairs say |
| `Architecture.Soundness` | src/utils/shellCheckArchitecture.ts:31-36 | a returned token t comes from a pair (architecture, t) listed for the resolved platform |
| `Architecture.Completeness` | src/utils/shellCheckArchitecture.ts:31-35 | if any pair of the resolved platform has the resolved architecture, the resolver returns rather than throws |
| `Architecture.UnknownPlatformThrows` | src/utils/shellCheckArchitecture.ts:31-35 | a platform absent from the table always throws `ArchitectureError` |
| `Architecture.DependsOnlyOnOptions` | src/utils/shellCheckArchitecture.ts:25-37 | no hidden inputs: two calls that resolve to the same platform and architecture give the same result |
| `Architecture.UniqueTableLookup` | src/utils/shellCheckArchitecture.ts:31-36 | when the platform's architectures are unique, the resolver returns t exactly when (architecture, t) is listed |
| `Effects.Machine.Access` | src/helpers/download.ts:49 | the access check succeeds exactly when the directory is writable, changes no file, and is recorded in the trace |
| `Effects.Machine.Mkdtemp` | src/helpers/download.ts:53 | creates a new empty temporary directory named by the prefix and the suffix, or fails and creates nothing; the call is recorded |
| `Effects.Machine.BuildUrl` | src/helpers/download.ts:60-61 | asks the URL builder for the platform and architecture, changes no file, and is recorded |
| `Effects.Machine.RequestDownload` | src/helpers/download.ts:65 | writes the fetched bytes to the archive file in the temporary directory with the default mode, or fails and changes nothing |
| `Effects.Machine.Decompress` | src/helpers/download.ts:69-73 | decodes the archive and writes the entries the filter keeps, with their paths stripped, into the output directory; fails and changes nothing on a malformed archive |
| `Effects.Machine.Chmod` | src/helpers/download.ts:79 | sets the mode of an existing file and changes nothing else, or fails and changes nothing |
| `Effects.Machine.Rename` | src/helpers/download.ts:83 | moves the file out of the temporary directory to the destination in one step, or fails and changes nothing |
| `Effects.Machine.Rm` | src/helpers/download.ts:88 | removes the temporary directory with all its contents, or fails and changes nothing |
| `Download.BinArchive` | src/helpers/download.ts:45 | the binary is named `shellcheck.exe` exactly when the platform is win32, and `shellcheck` otherwise |
| `Download.Dirname` | src/helpers/download.ts:49 | the parent checked for writability: `.` for a bare name, `/` for a file at the root, otherwise everything before the last `/` |
| `Download.LastBinary` | src/helpers/download.ts:69-73 | with one leading component stripped, returns nothing exactly when no archive entry is the binary; otherwise returns the last entry that is |
| `Download.ExtractKeepsOnlyBinary` | src/helpers/download.ts:69-73 | extraction with strip 1 and the exact-name filter changes the directory at the binary's name only, putting the last matching entry there; with no such entry it changes nothing |
| `Download.TryBody` | src/helpers/download.ts:47-66 | the try block on the machine: final state, trace, result and `tmpDir` are those of the specification `TryBlock` |
| `Download.Install` | src/helpers/download.ts:67-83 | the extract, chmod and rename steps on the machine agree with the specification from the extraction step on |
| `Download.Download` | src/helpers/download.ts:40-94 | the whole of `download` on the machine: result, final filesystem and trace are those of the specification `Run` |
| `Download.AccessDeniedCreatesNothing` | src/helpers/download.ts:47-53 | an unwritable parent directory fails with the access error; the only call is the access check, so there is no mkdtemp and no rm, and the filesystem is unchanged |
| `Download.InsideTempDir` | src/helpers/download.ts:58-83 | from the URL step on, `tmpDir` stays the directory created, no other temporary directory changes, writability never changes, and files change only at the destination and only on success |
| `Download.RemovedOnEveryPath` | src/helpers/download.ts:84-93 | once mkdtemp has succeeded, the last call is the removal of that directory, on success and on every failure, and a successful removal leaves it gone; before that, no removal is attempted |
| `Download.NoTempDirLeaks` | src/helpers/download.ts:53-93 | when removal succeeds, the temporary directories after the call are exactly those before it |
| `Download.DestinationOnlyChangedByRename` | src/helpers/download.ts:49-83 | the destination is the only file that can change; on any failure no file changes; writable directories never change |
| `Download.TryIgnoresRm` | src/helpers/download.ts:47-83 | the try block's outcome does not depend on whether removal will succeed |
| `Download.CleanupFailureSwallowed` | src/helpers/download.ts:84-93 | the result and the calls are the same whether the removal of the temporary directory succeeds or fails |
| `Download.GivenUrlOnly` | src/helpers/download.ts:60-65 | with an explicit URL, from the URL step on, `buildURL` is never called and every download is of that URL |
| `Download.ExplicitUrlUsedVerbatim` | src/helpers/download.ts:60-65 | with an explicit URL, no call of the run is `buildURL` and every download fetches exactly that URL |
| `Download.InstallFromArchive` | src/helpers/download.ts:67-83 | with the archive in place: a malformed archive fails at extraction; a missing binary or a refused chmod fails at chmod; a refused rename fails at rename; otherwise the destination gets the last matching entry's bytes with `config.mode` |
| `Download.InstallsFromArchive` | src/helpers/download.ts:58-83 | after a successful download, the try block succeeds exactly when an entry to install exists, and installs it at the destination |
| `Download.NoUrlOrNoArchiveFails` | src/helpers/download.ts:58-65 | a failing `buildURL` throws the URL error; a failing transfer throws the download error |
| `Download.InstallsTheBinary` | src/helpers/download.ts:47-83 | `download` succeeds exactly when every step can and the archive holds an entry that is the binary's name once one leading directory is stripped (a top-level `shellcheck` counts too); then the destination holds that entry's bytes with mode `config.mode`, and no other file changed |
| `Download.MissingBinarySurfacesAtChmod` | src/helpers/download.ts:69-79 | an archive without the binary passes extraction, and `download` throws the chmod error |
| `Download.FollowsPlan` | src/helpers/download.ts:47-83 | from any step of the plan, the calls made are the plan's next calls, cut off at the first that fails |
| `Download.StepsRunInOrder` | src/helpers/download.ts:47-93 | the calls are a prefix of the plan (access, mkdtemp, `buildURL` only without a URL, download, extract, chmod, rename), plus the removal. A success runs the whole plan; a failure ends at the call whose step threw |
| `Download.InstallIsIdempotent` | src/helpers/download.ts:40-94 | with the same collaborator answers and a successful cleanup, a second install after a successful one also succeeds and leaves the same state |

## Left out

- HTTP and URL construction: `requestDownload` and `buildURL` live in a module
  that is not part of this model. They are the oracle functions `fetch` and
  `buildUrl`.
  - A transfer either writes the whole body or fails and writes nothing.
  - A partially written archive is not modelled.
  - Timeouts belong to that module.
- The archive formats: tar.xz and zip decoding belong to foreign libraries and
  are the oracle `unpack`.
  - An archive is a list of file entries. Directory and link entries are not
    modelled.
  - Entries are written in archive order, so of several entries that are the
    binary the last one wins. The library writes entries concurrently, so the
    real winner among duplicates is not determined.
- Real filesystem semantics:
  - Writability is a set of directories, so permissions, ownership and the
    umask are not modelled; new files get mode 0o666.
  - Temporary directories live in their own namespace, apart from ordinary
    files. They cannot alias the destination.
  - mkdtemp's random suffix comes from the oracle. A suffix already in use
    fails the call.
  - A rename across devices, or one refused for any other reason, is the
    `renameOk` flag.
  - A failed `fs.rm` leaves the state unchanged; a partial removal is not
    modelled.
- Paths:
  - `path.normalize` is not modelled; the separator is `/`.
  - `os.tmpdir()` is an oracle value.
  - `Dirname` follows `path.dirname` for paths without trailing or repeated
    separators only.
  - `if (tmpDir)` is modelled as "mkdtemp returned". The directory name is
    never empty because the prefix is not.
- The thrown errors are reduced to the step that threw (`Failure`). Error
  messages and causes are not modelled.
- Logging (`logger.debug`, `logger.info`, `config.mode.toString(8)`) has no
  behavioural effect and is left out.
- Configuration: the contents of `config.binaries` and `config.mode` are
  parameters, so every property holds for any table and any mode. The
  uniqueness of architectures per platform is a hypothesis of
  `UniqueTableLookup` only.
- The `URL` object type of `args.url` is a string.
- Concurrency: the awaited steps run one after another. Concurrent installs
  racing on one destination are not modelled.
- The resolver is not called by `download`; whether `buildURL` fails for an
  unsupported platform is up to `buildURL`.
