# Create Android emulator step — Dafny model

A model of a CI build step that makes sure an Android emulator can be
created on a build agent. The step checks whether the requested platform
and system image are installed under `ANDROID_HOME`. It installs the
missing ones with the legacy `android update sdk` tool. It re-checks the
system image after installing it. Then it creates the AVD with
`android create avd` and exports the AVD name as `BITRISE_EMULATOR_NAME`.

Beside the step, two pieces of the bundled `go-android` library are
modelled:

- the SDK component descriptors (build tool, platform, system image),
  each giving an SDK-style id, a legacy id and an install path;
- the AVD manager wrapper, which picks the tool binary and builds the
  create-AVD command line.

Modules, one per source file, plus three small helpers:

- `Wrappers`: `Option` and `Result`.
- `Strings`: `strings.Split` and `strings.Join` at one character, with
  their round-trip lemmas.
- `FileSystem`: `filepath.Join`, and an oracle value `Fs` that stands in
  for the filesystem behind `pathutil.IsPathExists`.
- `SdkComponent` (`sdkcomponent.go`): the closed union `Component` and its
  three derivations, as total functions, with equational lemmas.
- `AvdManager` (`avdmanager.go`): `New` is a method that reassigns the
  chosen binary path as the Go code does. `CreateAVDCommand` is a function.
- `Step` (`main.go`): `Validate`, and the run. `Run` is an imperative
  method that keeps the source's flags and early exits. It is proved equal
  to the staged specification `Execute`, and the properties of the run are
  lemmas about `Execute`.

The outside world the step sees is an `Oracle`:

- the SDK root at the start, after the platform install, and after the
  system-image install (each an `Fs`: the existing paths, and the paths
  whose check fails with an I/O error);
- the set of actions whose process fails;
- the tokenisation of the options string.

A run is an `Outcome`: the ordered trace of `Exec(argv, stdin)` and
`Export(key, value)` actions it issued, a failing one included, and the
error it stopped with (`None` on success).

Three facts about `main.go` that the model follows:

- The step checks the untagged path `system-images/<platform>/<abi>`
  first and `system-images/<platform>/default/<abi>` second.
- The step itself creates the AVD with `android create avd ... --target
  <platform>`, not with `--package`. It does not use the `avdmanager`
  package. `Step.CreateAvdIsLegacyAvdManagerCommand` shows it is that
  package's legacy-mode command.
- Validation only rejects empty values. There are no ABI or tag lists, and
  `main.go` has no tag input.

## Model

| member | source | states |
|---|---|---|
| `Strings.Split` | vendor/github.com/bitrise-tools/go-android/sdkcomponent/sdkcomponent.go:106 | `strings.Split` at `-`: one more piece than separators, and no piece contains the separator |
| `Strings.SplitTwo` | vendor/github.com/bitrise-tools/go-android/sdkcomponent/sdkcomponent.go:106-107 | a string with exactly one `-` between two `-`-free parts splits into exactly those two parts |
| `FileSystem.JoinSegments` | vendor/github.com/bitrise-tools/go-android/sdkcomponent/sdkcomponent.go:122 | a joined path of non-empty, `/`-free elements splits at `/` back into those elements |
| `FileSystem.JoinNested` | vendor/github.com/bitrise-tools/go-android/sdkcomponent/sdkcomponent.go:122 | joining a joined path as the last element equals joining all the elements at once |
| `SdkComponent.TagOrDefault` | vendor/github.com/bitrise-tools/go-android/sdkcomponent/sdkcomponent.go:90-93 | an empty tag becomes `default`, and a non-empty tag is kept |
| `SdkComponent.OverridesWin` | vendor/github.com/bitrise-tools/go-android/sdkcomponent/sdkcomponent.go:25-102 | for every variant, a non-empty SDK-style or legacy override is returned verbatim |
| `SdkComponent.InstallPathIgnoresOverrides` | vendor/github.com/bitrise-tools/go-android/sdkcomponent/sdkcomponent.go:41-122 | the install path does not depend on either override field |
| `SdkComponent.BuildToolIds` | vendor/github.com/bitrise-tools/go-android/sdkcomponent/sdkcomponent.go:25-43 | a build tool gives `build-tools;V`, `build-tools-V` and `build-tools/V` |
| `SdkComponent.PlatformIds` | vendor/github.com/bitrise-tools/go-android/sdkcomponent/sdkcomponent.go:54-72 | a platform gives `platforms;V`, the bare `V` as legacy id, and `platforms/V` |
| `SdkComponent.EmptyTagIsDefault` | vendor/github.com/bitrise-tools/go-android/sdkcomponent/sdkcomponent.go:85-123 | an empty tag and the tag `default` give the same SDK-style id, legacy id and install path |
| `SdkComponent.SystemImageIdRoundTrip` | vendor/github.com/bitrise-tools/go-android/sdkcomponent/sdkcomponent.go:95 | splitting the SDK-style id at `;` gives back `system-images`, platform, tag-or-default, ABI when no field holds `;` |
| `SdkComponent.SdkStyleIdExample` | vendor/github.com/bitrise-tools/go-android/sdkcomponent/sdkcomponent.go:85-96 | `android-23`, `google_apis`, `x86` gives `system-images;android-23;google_apis;x86` |
| `SdkComponent.LegacyIdUntagged` | vendor/github.com/bitrise-tools/go-android/sdkcomponent/sdkcomponent.go:104-112 | with an empty or `default` tag the legacy id is `sys-img-<abi>-<platform>` |
| `SdkComponent.LegacyIdTagged` | vendor/github.com/bitrise-tools/go-android/sdkcomponent/sdkcomponent.go:105-112 | with a real tag and a platform `a-b` the legacy id is `sys-img-<abi>-<tag>-b` |
| `SdkComponent.LegacyIdKeepsOtherPlatforms` | vendor/github.com/bitrise-tools/go-android/sdkcomponent/sdkcomponent.go:104-112 | a platform with zero or several `-` is kept unchanged in the legacy id, whatever the tag |
| `SdkComponent.LegacyIdExample` | vendor/github.com/bitrise-tools/go-android/sdkcomponent/sdkcomponent.go:99-113 | `android-23`, `google_apis`, `x86` gives `sys-img-x86-google_apis-23` |
| `SdkComponent.SystemImageInstallPathSegments` | vendor/github.com/bitrise-tools/go-android/sdkcomponent/sdkcomponent.go:116-123 | the install path splits into exactly `system-images`, platform, tag-or-default, ABI: never an untagged three-segment form |
| `SdkComponent.InstallPathExample` | vendor/github.com/bitrise-tools/go-android/sdkcomponent/sdkcomponent.go:116-123 | `android-23`, empty tag, `x86` installs at `system-images/android-23/default/x86` |
| `AvdManager.Message` | vendor/github.com/bitrise-tools/go-android/avdmanager/avdmanager.go:23-33 | a missing-tool error message ends with the path looked for; other errors pass the cause on |
| `AvdManager.New` | vendor/github.com/bitrise-tools/go-android/avdmanager/avdmanager.go:20-40 | a probe error is passed on with no model; otherwise the legacy flag picks `tools/android` or `tools/bin/avdmanager`; a check error or a missing binary fails; success returns exactly the flag and that path |
| `AvdManager.ToolPaths` | vendor/github.com/bitrise-tools/go-android/avdmanager/avdmanager.go:21-28 | under SDK root `H` the binaries are `H/tools/bin/avdmanager` and `H/tools/android` |
| `AvdManager.CreateAVDCommand` | vendor/github.com/bitrise-tools/go-android/avdmanager/avdmanager.go:42-51 | the executable is the model's binary, the fixed part has 9 words starting `create avd --force` and ending with the ABI, and the options follow verbatim |
| `AvdManager.LegacyCreateArgs` | vendor/github.com/bitrise-tools/go-android/avdmanager/avdmanager.go:44-46 | legacy arguments are `create avd --force --name N --target P --abi A` then the options |
| `AvdManager.ModernCreateArgs` | vendor/github.com/bitrise-tools/go-android/avdmanager/avdmanager.go:49-50 | modern arguments are `create avd --force --package <SDK-style id> --name N --abi A` then the options |
| `AvdManager.CreateFlagsByMode` | vendor/github.com/bitrise-tools/go-android/avdmanager/avdmanager.go:42-51 | legacy arguments hold `--package` only if a caller value does; modern arguments hold `--target` only if a caller value does |
| `Step.Validate` | main.go:48-62 | fails iff name, platform, ABI or SDK root is empty; the first empty one in that order gives the message |
| `Step.ValidateIgnoresOptions` | main.go:48-62 | the options string never affects validation |
| `Step.ProbeSystemImage` | main.go:131-149 | installed iff the untagged or the `default` path exists; the second is not consulted when the first exists; an error names the untagged path if its check failed, otherwise the `default` path |
| `Step.Run` | main.go:75-232 | the imperative run issues exactly the actions and stops with exactly the error that `Execute` specifies |
| `Step.InvalidInputIssuesNothing` | main.go:81-83 | invalid inputs stop the run before any probe or action |
| `Step.ActionsDistinct` | main.go:108-228 | the two installs and the create command are different commands; the export is not a command run |
| `Step.CreateStageTrace` | main.go:202-230 | the last stage issues a prefix of "create, export", and the export only after a create that did not fail |
| `Step.ImageStageTrace` | main.go:131-230 | the image stage adds the image install exactly when the image check says missing |
| `Step.TraceShape` | main.go:90-230 | every trace is the needed installs in order, then a prefix of "create the AVD, export its name" |
| `Step.PlatformInstalledOnlyWhenMissing` | main.go:90-123 | the platform install is issued iff inputs are valid and `<home>/platforms/<platform>` is checked and absent |
| `Step.ImageInstalledOnlyWhenMissing` | main.go:131-165 | the system-image install is issued iff the run reaches the image check and it says missing |
| `Step.NothingInstalledWhenPresent` | main.go:104-156 | with platform and image present, no install command is issued |
| `Step.ReprobeDecides` | main.go:176-191 | after an image install, success requires the two-path check to find the image; if it does not, the run fails with the system image not installed |
| `Step.SuccessEndsWithExport` | main.go:211-230 | a successful run ends with the create command and then the export of `BITRISE_EMULATOR_NAME`, neither failed |
| `Step.ExportOnlyAfterCreate` | main.go:223-230 | an export is always the last action, right after a create command that did not fail |
| `Step.ImageStageEnds` | main.go:131-230 | how the stages after the platform check end: for each error (probe, image install, image still missing, options, create, export) the exact trace or its possible forms |
| `Step.ThroughPlatformStage` | main.go:90-123 | past the platform stage the run is the image stage; otherwise it stopped with an input, probe or platform-install error |
| `Step.FailingCommandEndsRun` | main.go:118-230 | a failing install, create or export is the last action, and the error names it |
| `Step.OptionsSplitAfterInstalls` | main.go:202-209 | options that do not tokenise stop the run after the installs and before the AVD is created |
| `Step.NoPlatformReprobe` | main.go:104-123 | the platform install is not re-checked: the state after it matters only at the two system-image paths |
| `Step.AlreadyInstalledRun` | main.go:90-230 | platform and image present, nothing failing, no options: the trace is exactly create then export |
| `Step.AlreadyInstalledExample` | main.go:211-230 | `Pixel_API_23` on `android-23`/`x86` runs `android create avd --force --name Pixel_API_23 --target android-23 --abi x86` with stdin `n` and exports the name |
| `Step.FiltersAreLegacyIds` | main.go:157 | the install filters are the legacy ids of the platform and of the untagged system image |
| `Step.ProbePathsAreInstallPaths` | main.go:92-139 | the platform path and the `default` image path are the components' install paths under the SDK root |
| `Step.CreateAvdIsLegacyAvdManagerCommand` | main.go:211-212 | the step's create command is the legacy AVD manager command run as `android` |

## Left out

- Process execution: spawning, stdio wiring (including the doubled `SetStdout`), exit codes. Each command is an `Exec` action; whether its process fails is the oracle's `failing` set.
- The `envman` export subprocess: it is one `Export` action whose failure is in the same oracle set.
- `shellquote.Split`, a library whose source is not part of this model: its result for a non-empty options string is the oracle's `splitOptions`, and `None` stands for a tokenisation error.
- `sdkmanager.IsLegacySDKVersion`, whose source is not part of this model: its answer or error is a parameter of `AvdManager.New`.
- Real filesystem semantics: an `Fs` value is the set of existing paths and the set of paths whose check errors. The filesystem changes only through the installs, as three snapshots.
- `filepath.Join`'s clean-up of `//`, `.` and `..`: `Join` drops empty elements and joins with `/`. Lemmas that need exact segments say so in their `requires`.
- Logging, `fmt.Println`, `ConfigsModel.print`, reading the inputs with `os.Getenv`, and `os.Exit`. `fail` is the error of the `Outcome`. Error texts are modelled only for validation and for the missing AVD tool; the other errors are structured values.
- `*Model` returned by `New` is a value (`AvdManager.Model`): nothing mutates it.
- Behaviour that is not in this code: ABI or tag lists, a `--tag` argument, writing a hardware profile `config.ini`, a tools self-update, and `sdkmanager` install commands.
