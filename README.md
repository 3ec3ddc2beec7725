# KubeVirt config-disk images, modelled in Dafny

KubeVirt exposes ConfigMaps, Secrets, DownwardAPI fields and ServiceAccount
tokens to a guest as small ISO-9660 disks. The package `pkg/config` builds these
images inside the virt-launcher pod. It:

- knows where each kind of data is mounted and where its image goes (the path registry);
- turns a mounted directory into xorrisofs graft points `name=path`;
- finds the size of a pre-sized, empty placeholder image in the VMI's volume status;
- builds either a populated image (by running `xorrisofs`) or an empty one (create the file, then set its length);
- dispatches between the two through two replaceable strategy slots.

The model keeps that decision logic and treats every operating-system and
external-tool call as an input: the directory listing and its error, the
answers of `os.Create` and `Truncate`, and the error of the `xorrisofs` run
with the length of the image it writes.

Modules, one per component:

- `Basics` (basics.dfy): `Option`, Go's `int64`, and the package's errors with their message texts.
- `Paths` (paths.dfy): the source types and the constant directories.
- `Layout` (layout.dfy): the simplified path join, graft points and `getFilesLayout`.
- `VolumeSize` (volume_size.dfy): `findIsoSize`.
- `IsoImage` (iso_image.dfy): the xorrisofs argument list and `defaultCreateIsoImage`.
- `EmptyIso` (empty_iso.dfy): a file system of logical lengths and `defaultCreateEmptyIsoImage`.
- `Strategies` (strategies.dfy): the two slots, their setters and `createIsoConfigImage`.

Go's `(value, error)` returns are pairs `(value, Option<Error>)`. `None` stands for a nil error, so the zero value returned beside an error is kept.

## Model

| member | source | states |
|---|---|---|
| `Basics.MessageNamesSubject` | pkg/config/config.go:138-168 | every error the package creates has the volume name or output path inside its message |
| `Basics.MessagesTellKindsApart` | pkg/config/config.go:138-168 | the three messages the package formats never coincide for different errors |
| `Paths.DirsAreAbsolute` | pkg/config/config.go:54-76 | every registered source and image directory is a non-empty absolute path |
| `Paths.DirsUnderMountBase` | pkg/config/config.go:54-74 | every image directory and every source directory except the service account's lies inside `/var/run/kubevirt-private/`; the service account's does not |
| `Paths.RegistryIsInjective` | pkg/config/config.go:43-76 | different source types have different names, source directories and image directories, and no source directory is an image directory |
| `Paths.DiskNameIsPlainFile` | pkg/config/config.go:74-76 | the service account's image name is a plain `.iso` file name without separators, distinct from every registered directory |
| `Layout.Join` | pkg/config/config.go:100 | the joined path ends in the entry name, preceded by the directory with exactly one separator (a trailing one is absorbed), or is the bare name for an empty directory |
| `Layout.SourceEntriesJoinCleanly` | pkg/config/config.go:59-65 | entries of every source directory, including the service account's with its trailing slash, are joined with a single separator |
| `Layout.GraftRoundTrip` | pkg/config/config.go:100 | a graft point splits at its first `=` back into the entry name and its host path, when the name holds no `=` |
| `Layout.GetFilesLayout` | pkg/config/config.go:92-103 | a failed listing gives no entries and the listing's error unchanged; otherwise one graft point per listed name, in listing order, entry i being `name_i=join(dir, name_i)` |
| `VolumeSize.FirstMatch` | pkg/config/config.go:163-167 | finds the first status entry with the volume's name, or reports that no entry has it |
| `VolumeSize.FindIsoSize` | pkg/config/config.go:161-171 | an error comes with size 0 and is exactly `VolumeStatusNotFound(volume.name)`, printed as "failed to find the status of volume <name>"; a non-zero size only when an empty image was requested |
| `VolumeSize.PopulatedWhenNotRequested` | pkg/config/config.go:162-170 | without a request for an empty image the result is size 0 and no error, whatever the status holds |
| `VolumeSize.FirstMatchingStatusDecides` | pkg/config/config.go:163-166 | with a request, the size of the first entry named like the volume is returned with no error |
| `VolumeSize.MissingStatusFails` | pkg/config/config.go:168 | with a request and no matching entry, the result is 0 and an error whose message contains the volume name |
| `VolumeSize.OnlyFirstEntryMatters` | pkg/config/config.go:163-166 | entries before the first match, and all entries after it, do not affect the result |
| `IsoImage.VolumeLabel` | pkg/config/config.go:107-109 | the volume label is never empty and is the caller's whenever the caller gives one (otherwise `cfgdata`) |
| `IsoImage.XorrisofsArgs` | pkg/config/config.go:111-122 | the argument list has 10 tokens plus one per file, the fixed flags at positions 0, 2, 3 and 5-9, the output at 1, the label at 4, and the graft points after them in order |
| `IsoImage.ArgsRoundTrip` | pkg/config/config.go:111-122 | reading the argument list back gives the output, the label used and the graft points |
| `IsoImage.ParsedArgsRebuild` | pkg/config/config.go:111-122 | every list that reads back with a non-empty label is exactly the list built from what it reads back as |
| `IsoImage.DefaultCreateIsoImage` | pkg/config/config.go:105-133 | runs `xorrisofs` with exactly that argument list, built one token at a time, and returns the tool's error unchanged |
| `EmptyIso.FileSystem.Create` | pkg/config/config.go:136-139 | a successful create leaves the output with length 0; a failed one changes nothing |
| `EmptyIso.FileSystem.Truncate` | pkg/config/config.go:140-144 | the resize succeeds exactly when the size is not negative and the system accepts it, and then sets the length to the size; otherwise nothing changes |
| `EmptyIso.FileSystem.DefaultCreateEmptyIsoImage` | pkg/config/config.go:135-146 | the new lengths and the error are those of `EmptyImageResult` on the old lengths |
| `EmptyIso.EmptyImageOutcomes` | pkg/config/config.go:136-145 | failed create: "failed to create" error, nothing changed; failed resize: "failed to inflate" error, output left empty; success: output length equals the size; no other file changes |
| `EmptyIso.EmptyImageSucceedsIff` | pkg/config/config.go:136-145 | the empty-image build succeeds if and only if both system calls succeed and the size is not negative |
| `EmptyIso.EmptyImageErrorsNameOutput` | pkg/config/config.go:138-143 | every error of the empty-image build names the output path |
| `Strategies.CallFor` | pkg/config/config.go:150-154 | the populated strategy is called exactly when the size is 0, with output, volume ID and files; otherwise the empty strategy, with output and size |
| `Strategies.EmptyStrategyChosenIff` | pkg/config/config.go:148-171 | after a successful lookup, the empty strategy is chosen if and only if an empty image was requested and the volume's first status entry records a non-zero size |
| `Strategies.CreationSlots.constructor` | pkg/config/config.go:78-79 | both slots start with the package's own implementations |
| `Strategies.CreationSlots.SetIsoCreationFunction` | pkg/config/config.go:83-85 | replaces the populated-image slot and leaves the other slot unchanged |
| `Strategies.CreationSlots.SetEmptyIsoCreationFunction` | pkg/config/config.go:88-90 | replaces the empty-image slot and leaves the other slot unchanged |
| `Strategies.CreationSlots.CreateIsoConfigImage` | pkg/config/config.go:148-159 | makes exactly the one call `CallFor` names, through the current slot, and returns that strategy's error unchanged; a default populated build runs xorrisofs with `XorrisofsArgs`, a successful run leaves the image at the output path, and no other file changes; a default empty build has the effect `EmptyImageResult` gives |
| `Strategies.SubstitutedStrategyIsUsed` | pkg/config/config.go:83-154 | after either setter replaces its slot, a build whose size selects that slot calls the substitute and returns its error; a build selecting the other slot still runs the default, with the default's error and file effect |

Two consequences of the code worth knowing:

- A matching status entry that records size 0 yields size 0, and a size-0 build is a populated one, even when an empty image was requested (`EmptyStrategyChosenIff`).
- A negative size reaches `Truncate`, which refuses it, so the build reports "failed to inflate" and leaves an empty file (`EmptyImageOutcomes`).

## Left out

- Running `xorrisofs` (pkg/config/config.go:127-128) is an external process. Its error (`toolErr`) and the length of the image it writes (`isoLen`) are inputs.
- `Strategies.CreationSlots.CreateIsoConfigImage`: after a failed xorrisofs run the file at the output path is left unspecified (the tool may have written part of it); only the other paths are promised unchanged.
- `Strategies.CreationSlots.CreateIsoConfigImage`: a substitute strategy is modelled as writing no file; what a test double does to the file system is outside the model, and only its error is tracked.
- The directory read, `os.Create`, `Truncate` and `Close` are operating-system I/O. The listing and the system's answers are inputs. File contents and sparse allocation are not modelled; a file is only its logical length.
- The error from the deferred `Close` is discarded by the code, and the model does not track open files at all.
- `Layout.Join`: does not model the path cleaning that `filepath.Join` does (collapsing repeated separators, `.` and `..`). It only absorbs one trailing separator of the directory. That covers every registered source directory.
- `Layout.GraftRoundTrip`: holds only for entry names without `=`. The code does not escape `=` in names, and the model does not follow how xorrisofs would read such an entry.
- The order of the listing is taken as given. The standard library's directory read returns entries sorted by name, but that is outside the modelled code.
- The ISO-9660, Joliet and Rock Ridge formats are left out; the code only passes flags to the tool.
- The `VirtualMachineInstance` and `Volume` types: only the fields that are read are modelled (the status's volume names and sizes, and the volume's name). A nil VMI pointer is not modelled.
- Strategy slots hold tags (`Default` or a named `Substitute`), not Go function values. What a substitute does is the `substitute` parameter, which maps the call made to its error.
- The slots are package-level variables in Go, and concurrent mutation of them is unprotected. The model has one `CreationSlots` object and no concurrency.
