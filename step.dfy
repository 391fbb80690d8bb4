/**
 * The build step itself: validate the inputs, make sure the platform and
 * the system image are installed (installing them with the legacy
 * `android update sdk` tool when they are not), create the AVD with
 * `android create avd`, and export its name.
 *
 * Everything the step observes from the outside world is an `Oracle`:
 * the filesystem before and after each install, which commands fail, and
 * how the options string tokenises. The run is the ordered trace of the
 * commands and exports it issues, and the error it stops with, if any.
 */
module Step {
  import opened Wrappers
  import opened Strings
  import opened FileSystem
  import SdkComponent
  import AvdManager

  /** The key under which the AVD name is exported. */
  const BitriseEmulatorName := "BITRISE_EMULATOR_NAME"

  /** The step's inputs. */
  datatype Config = Config(name: string, platform: string, abi: string, options: string,
                           androidHome: string)

  const NoNameMessage := "no Name parameter specified"
  const NoPlatformMessage := "no Platform parameter specified"
  const NoAbiMessage := "no Abi parameter specified"
  const NoAndroidHomeMessage := "no ANDROID_HOME env set"

  /**
   * `ConfigsModel.validate`: the name, platform, ABI and SDK root are
   * required, checked in that order, and the first one missing is
   * reported. The options may be empty.
   */
  function Validate(cfg: Config): (r: Option<string>)
    ensures r.None? <==> cfg.name != "" && cfg.platform != "" && cfg.abi != "" && cfg.androidHome != ""
    ensures r == Some(NoNameMessage) <==> cfg.name == ""
    ensures r == Some(NoPlatformMessage) <==> cfg.name != "" && cfg.platform == ""
    ensures r == Some(NoAbiMessage) <==> cfg.name != "" && cfg.platform != "" && cfg.abi == ""
    ensures r == Some(NoAndroidHomeMessage) <==>
      cfg.name != "" && cfg.platform != "" && cfg.abi != "" && cfg.androidHome == ""
  {
    if cfg.name == "" then Some(NoNameMessage)
    else if cfg.platform == "" then Some(NoPlatformMessage)
    else if cfg.abi == "" then Some(NoAbiMessage)
    else if cfg.androidHome == "" then Some(NoAndroidHomeMessage)
    else None
  }

  /** The options never make the inputs invalid. */
  lemma ValidateIgnoresOptions(cfg: Config, options: string)
    ensures Validate(cfg.(options := options)) == Validate(cfg)
  {
  }

  // ---- Paths probed ----

  function PlatformPath(cfg: Config): string
  {
    Join([cfg.androidHome, "platforms", cfg.platform])
  }

  /** The system image as older SDKs lay it out, without a tag directory. */
  function UntaggedImagePath(cfg: Config): string
  {
    Join([cfg.androidHome, "system-images", cfg.platform, cfg.abi])
  }

  /** The system image under the `default` tag directory. */
  function DefaultImagePath(cfg: Config): string
  {
    Join([cfg.androidHome, "system-images", cfg.platform, "default", cfg.abi])
  }

  /**
   * The two-path system-image check: the untagged path first, and the
   * `default` path only when the first does not exist. An error names the
   * path whose check failed.
   */
  function ProbeSystemImage(fs: Fs, cfg: Config): (r: Result<bool, string>)
    ensures r.Success? ==>
      (r.value <==> UntaggedImagePath(cfg) in fs.existing || DefaultImagePath(cfg) in fs.existing)
    ensures r.Failure? <==>
      UntaggedImagePath(cfg) in fs.unreadable ||
      (UntaggedImagePath(cfg) !in fs.existing && DefaultImagePath(cfg) in fs.unreadable)
    ensures r.Failure? ==>
      r.error == (if UntaggedImagePath(cfg) in fs.unreadable then UntaggedImagePath(cfg) else DefaultImagePath(cfg))
    ensures UntaggedImagePath(cfg) !in fs.unreadable && UntaggedImagePath(cfg) in fs.existing ==>
      r == Success(true)
  {
    match IsPathExists(fs, UntaggedImagePath(cfg))
    case Failure(path) => Failure(path)
    case Success(present) =>
      if present then Success(true) else IsPathExists(fs, DefaultImagePath(cfg))
  }

  // ---- Actions ----

  /** One thing the step does to the outside world. */
  datatype Action =
    | Exec(argv: seq<string>, stdin: string)   // run `argv[0]` with the rest as arguments
    | Export(key: string, value: string)       // `envman add --key key`, value on stdin

  /** The legacy filter id of the system image. */
  function SystemImageFilter(cfg: Config): string
  {
    "sys-img-" + cfg.abi + "-" + cfg.platform
  }

  function InstallPlatform(cfg: Config): Action
  {
    Exec(["android", "update", "sdk", "--no-ui", "--all", "--filter", cfg.platform], "y")
  }

  function InstallSystemImage(cfg: Config): Action
  {
    Exec(["android", "update", "sdk", "--no-ui", "--all", "--filter", SystemImageFilter(cfg)], "y")
  }

  /** `android create avd`, answering `n` to the custom hardware profile prompt. */
  function CreateAvd(cfg: Config, options: seq<string>): Action
  {
    Exec(["android", "create", "avd", "--force", "--name", cfg.name, "--target", cfg.platform,
          "--abi", cfg.abi] + options, "n")
  }

  function ExportName(cfg: Config): Action
  {
    Export(BitriseEmulatorName, cfg.name)
  }

  // ---- The run ----

  datatype StepError =
    | InvalidInput(reason: string)
    | ProbeFailed(path: string)
    | PlatformInstallFailed
    | SystemImageInstallFailed
    | SystemImageNotInstalled(systemImage: string)
    | OptionsSplitFailed(options: string)
    | CreateAvdFailed
    | ExportFailed

  /** What the step cannot see inside of. */
  datatype Oracle = Oracle(
    initial: Fs,                        // the SDK root at the start
    afterPlatformInstall: Fs,           // ... once the platform install has run
    afterImageInstall: Fs,              // ... once the system-image install has run
    failing: set<Action>,               // actions whose process fails
    splitOptions: Option<seq<string>>)  // the shell words of a non-empty options string, or None

  /** The actions issued, in order, and the error the run stopped with (`None`: success). */
  datatype Outcome = Outcome(trace: seq<Action>, error: Option<StepError>)

  /** The options passed to `android create avd`, or `None` when they do not tokenise. */
  function AvdOptions(cfg: Config, oracle: Oracle): Option<seq<string>>
  {
    if cfg.options == "" then Some([]) else oracle.splitOptions
  }

  /** The run's specification, stage by stage. */
  function Execute(cfg: Config, oracle: Oracle): Outcome
  {
    match Validate(cfg)
    case Some(reason) => Outcome([], Some(InvalidInput(reason)))
    case None =>
      match IsPathExists(oracle.initial, PlatformPath(cfg))
      case Failure(path) => Outcome([], Some(ProbeFailed(path)))
      case Success(installed) =>
        if installed then ImageStage(cfg, oracle, [], oracle.initial)
        else if InstallPlatform(cfg) in oracle.failing then
          Outcome([InstallPlatform(cfg)], Some(PlatformInstallFailed))
        else ImageStage(cfg, oracle, [InstallPlatform(cfg)], oracle.afterPlatformInstall)
  }

  /** From the system-image check on, with `trace` issued so far and the SDK root in state `fs`. */
  function ImageStage(cfg: Config, oracle: Oracle, trace: seq<Action>, fs: Fs): Outcome
  {
    match ProbeSystemImage(fs, cfg)
    case Failure(path) => Outcome(trace, Some(ProbeFailed(path)))
    case Success(installed) =>
      if installed then CreateStage(cfg, oracle, trace)
      else
        var issued := trace + [InstallSystemImage(cfg)];
        if InstallSystemImage(cfg) in oracle.failing then
          Outcome(issued, Some(SystemImageInstallFailed))
        else
          match ProbeSystemImage(oracle.afterImageInstall, cfg)
          case Failure(path) => Outcome(issued, Some(ProbeFailed(path)))
          case Success(nowInstalled) =>
            if nowInstalled then CreateStage(cfg, oracle, issued)
            else Outcome(issued, Some(SystemImageNotInstalled(SystemImageFilter(cfg))))
  }

  /** From tokenising the options on: create the AVD, then export its name. */
  function CreateStage(cfg: Config, oracle: Oracle, trace: seq<Action>): Outcome
  {
    match AvdOptions(cfg, oracle)
    case None => Outcome(trace, Some(OptionsSplitFailed(cfg.options)))
    case Some(options) =>
      var created := trace + [CreateAvd(cfg, options)];
      if CreateAvd(cfg, options) in oracle.failing then Outcome(created, Some(CreateAvdFailed))
      else
        var exported := created + [ExportName(cfg)];
        if ExportName(cfg) in oracle.failing then Outcome(exported, Some(ExportFailed))
        else Outcome(exported, None)
  }

  /**
   * `main`: the step as the program runs it, flag by flag and command by
   * command, stopping at the first failure.
   */
  method Run(cfg: Config, oracle: Oracle) returns (trace: seq<Action>, error: Option<StepError>)
    ensures Outcome(trace, error) == Execute(cfg, oracle)
  {
    trace := [];
    var invalid := Validate(cfg);
    if invalid.Some? {
      return trace, Some(InvalidInput(invalid.value));
    }

    // Check whether the platform is installed, and install it if not.
    var fs := oracle.initial;
    var platformInstalled := false;
    var platformPth := PlatformPath(cfg);
    var probe := IsPathExists(fs, platformPth);
    if probe.Failure? {
      return trace, Some(ProbeFailed(platformPth));
    }
    platformInstalled := probe.value;
    if !platformInstalled {
      trace := trace + [InstallPlatform(cfg)];
      if InstallPlatform(cfg) in oracle.failing {
        return trace, Some(PlatformInstallFailed);
      }
      fs := oracle.afterPlatformInstall;
    }

    // Check whether the system image is installed, and install it if not.
    var systemImageInstalled := false;
    var systemImagePth := UntaggedImagePath(cfg);
    probe := IsPathExists(fs, systemImagePth);
    if probe.Failure? {
      return trace, Some(ProbeFailed(systemImagePth));
    } else if !probe.value {
      systemImagePth := DefaultImagePath(cfg);
      probe := IsPathExists(fs, systemImagePth);
      if probe.Failure? {
        return trace, Some(ProbeFailed(systemImagePth));
      }
      systemImageInstalled := probe.value;
    } else {
      systemImageInstalled := true;
    }
    if !systemImageInstalled {
      trace := trace + [InstallSystemImage(cfg)];
      if InstallSystemImage(cfg) in oracle.failing {
        return trace, Some(SystemImageInstallFailed);
      }
      fs := oracle.afterImageInstall;
      systemImagePth := UntaggedImagePath(cfg);
      probe := IsPathExists(fs, systemImagePth);
      if probe.Failure? {
        return trace, Some(ProbeFailed(systemImagePth));
      } else if !probe.value {
        systemImagePth := DefaultImagePath(cfg);
        probe := IsPathExists(fs, systemImagePth);
        if probe.Failure? {
          return trace, Some(ProbeFailed(systemImagePth));
        } else if !probe.value {
          return trace, Some(SystemImageNotInstalled(SystemImageFilter(cfg)));
        }
      }
    }

    // Create the AVD and export its name.
    var options := [];
    if cfg.options != "" {
      if oracle.splitOptions.None? {
        return trace, Some(OptionsSplitFailed(cfg.options));
      }
      options := oracle.splitOptions.value;
    }
    trace := trace + [CreateAvd(cfg, options)];
    if CreateAvd(cfg, options) in oracle.failing {
      return trace, Some(CreateAvdFailed);
    }
    trace := trace + [ExportName(cfg)];
    if ExportName(cfg) in oracle.failing {
      return trace, Some(ExportFailed);
    }
    error := None;
  }

  // ---- Properties of the run ----

  /**
   * The SDK root state the system-image check sees, when the run gets that
   * far: the initial one if the platform was there, the post-install one
   * if it was installed.
   */
  function ImageProbeState(cfg: Config, oracle: Oracle): Option<Fs>
  {
    if Validate(cfg).Some? then None
    else match IsPathExists(oracle.initial, PlatformPath(cfg))
      case Failure(_) => None
      case Success(installed) =>
        if installed then Some(oracle.initial)
        else if InstallPlatform(cfg) in oracle.failing then None
        else Some(oracle.afterPlatformInstall)
  }

  /** Invalid inputs stop the run before any probe or command. */
  lemma InvalidInputIssuesNothing(cfg: Config, oracle: Oracle)
    requires Validate(cfg).Some?
    ensures Execute(cfg, oracle) == Outcome([], Some(InvalidInput(Validate(cfg).value)))
  {
  }

  /** The platform install, exactly when the run checks the platform and finds it missing. */
  function PlatformInstalls(cfg: Config, oracle: Oracle): seq<Action>
  {
    if Validate(cfg).None? && IsPathExists(oracle.initial, PlatformPath(cfg)) == Success(false)
    then [InstallPlatform(cfg)] else []
  }

  /** The system-image install, exactly when the run checks the image and finds it missing. */
  function ImageInstalls(cfg: Config, oracle: Oracle): seq<Action>
  {
    match ImageProbeState(cfg, oracle)
    case None => []
    case Some(fs) => if ProbeSystemImage(fs, cfg) == Success(false) then [InstallSystemImage(cfg)] else []
  }

  /** Creating the AVD and exporting its name, when the options tokenise. */
  function FinalActions(cfg: Config, oracle: Oracle): seq<Action>
  {
    match AvdOptions(cfg, oracle)
    case None => []
    case Some(options) => [CreateAvd(cfg, options), ExportName(cfg)]
  }

  /** The last stage issues a prefix of the final actions. */
  lemma CreateStageTrace(cfg: Config, oracle: Oracle, trace: seq<Action>)
    ensures var r := CreateStage(cfg, oracle, trace).trace;
      |trace| <= |r| && r[..|trace|] == trace && r[|trace|..] <= FinalActions(cfg, oracle)
      && (|r| == |trace| + 2 ==>
            AvdOptions(cfg, oracle).Some? && CreateAvd(cfg, AvdOptions(cfg, oracle).value) !in oracle.failing)
  {
    var r := CreateStage(cfg, oracle, trace).trace;
    assert r[..|trace|] == trace;
  }

  /** The system-image stage adds the image install exactly when the image is found missing. */
  lemma ImageStageTrace(cfg: Config, oracle: Oracle, trace: seq<Action>, fs: Fs)
    ensures var r := ImageStage(cfg, oracle, trace, fs).trace;
      var pre := trace + (if ProbeSystemImage(fs, cfg) == Success(false) then [InstallSystemImage(cfg)] else []);
      |pre| <= |r| && r[..|pre|] == pre && r[|pre|..] <= FinalActions(cfg, oracle)
      && (|r| == |pre| + 2 ==>
            AvdOptions(cfg, oracle).Some? && CreateAvd(cfg, AvdOptions(cfg, oracle).value) !in oracle.failing)
  {
    match ProbeSystemImage(fs, cfg)
    case Failure(_) =>
    case Success(installed) =>
      if installed {
        CreateStageTrace(cfg, oracle, trace);
        assert trace + [] == trace;
      } else {
        var issued := trace + [InstallSystemImage(cfg)];
        if InstallSystemImage(cfg) !in oracle.failing
           && ProbeSystemImage(oracle.afterImageInstall, cfg) == Success(true) {
          CreateStageTrace(cfg, oracle, issued);
        }
      }
  }

  /**
   * Every trace is: the platform install if the platform was found
   * missing, the system-image install if the image was found missing,
   * then a prefix of "create the AVD, export its name".
   */
  lemma TraceShape(cfg: Config, oracle: Oracle)
    ensures var r := Execute(cfg, oracle).trace;
      var pre := PlatformInstalls(cfg, oracle) + ImageInstalls(cfg, oracle);
      |pre| <= |r| && r[..|pre|] == pre && r[|pre|..] <= FinalActions(cfg, oracle)
      && (|r| == |pre| + 2 ==>
            AvdOptions(cfg, oracle).Some? && CreateAvd(cfg, AvdOptions(cfg, oracle).value) !in oracle.failing)
  {
    match Validate(cfg)
    case Some(_) =>
    case None =>
      match IsPathExists(oracle.initial, PlatformPath(cfg))
      case Failure(_) =>
      case Success(installed) =>
        if installed {
          ImageStageTrace(cfg, oracle, [], oracle.initial);
          assert [] + ImageInstalls(cfg, oracle) == ImageInstalls(cfg, oracle);
        } else if InstallPlatform(cfg) !in oracle.failing {
          ImageStageTrace(cfg, oracle, [InstallPlatform(cfg)], oracle.afterPlatformInstall);
        }
  }

  /** The four kinds of action the step issues are told apart by their words. */
  lemma ActionsDistinct(cfg: Config, options: seq<string>)
    ensures InstallPlatform(cfg) != InstallSystemImage(cfg)
    ensures InstallPlatform(cfg) != CreateAvd(cfg, options)
    ensures InstallSystemImage(cfg) != CreateAvd(cfg, options)
    ensures InstallPlatform(cfg).Exec? && InstallSystemImage(cfg).Exec? && CreateAvd(cfg, options).Exec?
    ensures ExportName(cfg).Export?
  {
    assert |SystemImageFilter(cfg)| > |cfg.platform|;
    assert InstallPlatform(cfg).argv[6] != InstallSystemImage(cfg).argv[6];
    assert InstallPlatform(cfg).argv[1] != CreateAvd(cfg, options).argv[1];
  }

  /** The platform is installed exactly when its check says it is missing. */
  lemma PlatformInstalledOnlyWhenMissing(cfg: Config, oracle: Oracle)
    ensures InstallPlatform(cfg) in Execute(cfg, oracle).trace <==>
      Validate(cfg).None? && IsPathExists(oracle.initial, PlatformPath(cfg)) == Success(false)
  {
    var r := Execute(cfg, oracle).trace;
    var pre := PlatformInstalls(cfg, oracle) + ImageInstalls(cfg, oracle);
    TraceShape(cfg, oracle);
    ActionsDistinct(cfg, if AvdOptions(cfg, oracle).Some? then AvdOptions(cfg, oracle).value else []);
    assert r == pre + r[|pre|..];
    assert InstallPlatform(cfg) !in ImageInstalls(cfg, oracle);
    assert InstallPlatform(cfg) !in FinalActions(cfg, oracle);
  }

  /** The system image is installed exactly when its two-path check says it is missing. */
  lemma ImageInstalledOnlyWhenMissing(cfg: Config, oracle: Oracle)
    ensures InstallSystemImage(cfg) in Execute(cfg, oracle).trace <==>
      ImageProbeState(cfg, oracle).Some? &&
      ProbeSystemImage(ImageProbeState(cfg, oracle).value, cfg) == Success(false)
  {
    var r := Execute(cfg, oracle).trace;
    var pre := PlatformInstalls(cfg, oracle) + ImageInstalls(cfg, oracle);
    TraceShape(cfg, oracle);
    ActionsDistinct(cfg, if AvdOptions(cfg, oracle).Some? then AvdOptions(cfg, oracle).value else []);
    assert r == pre + r[|pre|..];
    assert InstallSystemImage(cfg) !in PlatformInstalls(cfg, oracle);
    assert InstallSystemImage(cfg) !in FinalActions(cfg, oracle);
  }

  /** With the platform and the image already present, nothing is installed. */
  lemma NothingInstalledWhenPresent(cfg: Config, oracle: Oracle)
    requires IsPathExists(oracle.initial, PlatformPath(cfg)) == Success(true)
    requires ProbeSystemImage(oracle.initial, cfg) == Success(true)
    ensures InstallPlatform(cfg) !in Execute(cfg, oracle).trace
    ensures InstallSystemImage(cfg) !in Execute(cfg, oracle).trace
  {
    PlatformInstalledOnlyWhenMissing(cfg, oracle);
    ImageInstalledOnlyWhenMissing(cfg, oracle);
  }

  /**
   * After a system-image install the two-path check runs again and
   * decides: the run goes on only if it now finds the image.
   */
  lemma ReprobeDecides(cfg: Config, oracle: Oracle)
    requires InstallSystemImage(cfg) in Execute(cfg, oracle).trace
    ensures Execute(cfg, oracle).error.None? ==>
      ProbeSystemImage(oracle.afterImageInstall, cfg) == Success(true)
    ensures (InstallSystemImage(cfg) !in oracle.failing &&
             ProbeSystemImage(oracle.afterImageInstall, cfg) == Success(false)) ==>
      Execute(cfg, oracle).error == Some(SystemImageNotInstalled(SystemImageFilter(cfg)))
  {
    ImageInstalledOnlyWhenMissing(cfg, oracle);
  }

  /**
   * A successful run issues all its final actions: it ends by creating
   * the AVD and then exporting its name, neither of which failed.
   */
  lemma SuccessEndsWithExport(cfg: Config, oracle: Oracle)
    requires Execute(cfg, oracle).error.None?
    ensures var r := Execute(cfg, oracle).trace;
      AvdOptions(cfg, oracle).Some? && |r| >= 2 &&
      r[|r| - 1] == ExportName(cfg) && r[|r| - 2] == CreateAvd(cfg, AvdOptions(cfg, oracle).value) &&
      ExportName(cfg) !in oracle.failing &&
      CreateAvd(cfg, AvdOptions(cfg, oracle).value) !in oracle.failing
  {
  }

  /** The name is exported only as the last action, right after an AVD creation that succeeded. */
  lemma ExportOnlyAfterCreate(cfg: Config, oracle: Oracle, i: nat)
    requires i < |Execute(cfg, oracle).trace| && Execute(cfg, oracle).trace[i].Export?
    ensures var r := Execute(cfg, oracle).trace;
      i == |r| - 1 && i >= 1 && r[i] == ExportName(cfg) && AvdOptions(cfg, oracle).Some? &&
      r[i - 1] == CreateAvd(cfg, AvdOptions(cfg, oracle).value) &&
      CreateAvd(cfg, AvdOptions(cfg, oracle).value) !in oracle.failing
  {
    var r := Execute(cfg, oracle).trace;
    var pre := PlatformInstalls(cfg, oracle) + ImageInstalls(cfg, oracle);
    TraceShape(cfg, oracle);
    ActionsDistinct(cfg, []);
    assert forall a :: a in pre ==> a.Exec?;
    if i < |pre| {
      assert r[i] in pre;
    }
    var tail := r[|pre|..];
    assert tail[i - |pre|] == r[i];
    assert |tail| <= |FinalActions(cfg, oracle)|;
  }

  /** How the stages after the platform stage end, relative to the trace they start from. */
  lemma ImageStageEnds(cfg: Config, oracle: Oracle, trace: seq<Action>, fs: Fs)
    ensures var o := ImageStage(cfg, oracle, trace, fs);
      var pre := trace + (if ProbeSystemImage(fs, cfg) == Success(false) then [InstallSystemImage(cfg)] else []);
      o.error != Some(PlatformInstallFailed) &&
      (o.error == Some(SystemImageInstallFailed) ==>
         o.trace == trace + [InstallSystemImage(cfg)] && InstallSystemImage(cfg) in oracle.failing) &&
      (o.error == Some(CreateAvdFailed) ==>
         AvdOptions(cfg, oracle).Some? &&
         o.trace == pre + [CreateAvd(cfg, AvdOptions(cfg, oracle).value)] &&
         CreateAvd(cfg, AvdOptions(cfg, oracle).value) in oracle.failing) &&
      (o.error == Some(ExportFailed) ==>
         o.trace == pre + FinalActions(cfg, oracle) && ExportName(cfg) in oracle.failing) &&
      (o.error == Some(OptionsSplitFailed(cfg.options)) ==>
         cfg.options != "" && oracle.splitOptions.None? && o.trace == pre) &&
      (o.error == Some(SystemImageNotInstalled(SystemImageFilter(cfg))) ==>
         o.trace == trace + [InstallSystemImage(cfg)] &&
         ProbeSystemImage(oracle.afterImageInstall, cfg) == Success(false)) &&
      (o.error.Some? && o.error.value.ProbeFailed? ==>
         o.trace == trace || o.trace == trace + [InstallSystemImage(cfg)])
  {
  }

  /** A failing command is the last action of the run, and the error says which one failed. */
  lemma FailingCommandEndsRun(cfg: Config, oracle: Oracle)
    ensures var o := Execute(cfg, oracle);
      var pre := PlatformInstalls(cfg, oracle) + ImageInstalls(cfg, oracle);
      (o.error == Some(PlatformInstallFailed) ==>
         o.trace == [InstallPlatform(cfg)] && InstallPlatform(cfg) in oracle.failing) &&
      (o.error == Some(SystemImageInstallFailed) ==>
         o.trace == PlatformInstalls(cfg, oracle) + [InstallSystemImage(cfg)] &&
         InstallSystemImage(cfg) in oracle.failing) &&
      (o.error == Some(CreateAvdFailed) ==>
         AvdOptions(cfg, oracle).Some? &&
         o.trace == pre + [CreateAvd(cfg, AvdOptions(cfg, oracle).value)] &&
         CreateAvd(cfg, AvdOptions(cfg, oracle).value) in oracle.failing) &&
      (o.error == Some(ExportFailed) ==>
         o.trace == pre + FinalActions(cfg, oracle) && ExportName(cfg) in oracle.failing)
  {
    ThroughPlatformStage(cfg, oracle);
    if ImageProbeState(cfg, oracle).Some? {
      ImageStageEnds(cfg, oracle, PlatformInstalls(cfg, oracle), ImageProbeState(cfg, oracle).value);
    }
  }

  /**
   * Past the platform stage, the run is the image stage started from the
   * platform install (if any) and the SDK root state it left.
   */
  lemma ThroughPlatformStage(cfg: Config, oracle: Oracle)
    ensures ImageProbeState(cfg, oracle).Some? ==>
      Execute(cfg, oracle) ==
        ImageStage(cfg, oracle, PlatformInstalls(cfg, oracle), ImageProbeState(cfg, oracle).value)
    ensures ImageProbeState(cfg, oracle).Some? ==>
      ImageInstalls(cfg, oracle) ==
        (if ProbeSystemImage(ImageProbeState(cfg, oracle).value, cfg) == Success(false)
         then [InstallSystemImage(cfg)] else [])
    ensures ImageProbeState(cfg, oracle).None? ==>
      var o := Execute(cfg, oracle);
      o.error.Some? && o.trace == PlatformInstalls(cfg, oracle) &&
      (o.error.value.InvalidInput? || o.error.value.ProbeFailed? ||
       (o.error.value == PlatformInstallFailed && InstallPlatform(cfg) in oracle.failing))
  {
  }

  /**
   * Options are tokenised only after both installs: options that do not
   * tokenise stop the run with the installs done and no AVD created.
   */
  lemma OptionsSplitAfterInstalls(cfg: Config, oracle: Oracle)
    requires Execute(cfg, oracle).error == Some(OptionsSplitFailed(cfg.options))
    ensures cfg.options != "" && oracle.splitOptions.None?
    ensures Execute(cfg, oracle).trace == PlatformInstalls(cfg, oracle) + ImageInstalls(cfg, oracle)
  {
    ThroughPlatformStage(cfg, oracle);
    if ImageProbeState(cfg, oracle).Some? {
      ImageStageEnds(cfg, oracle, PlatformInstalls(cfg, oracle), ImageProbeState(cfg, oracle).value);
    }
  }

  /**
   * The platform install is not checked again: what the SDK root holds
   * afterwards matters to the run only at the two system-image paths.
   */
  lemma NoPlatformReprobe(cfg: Config, oracle: Oracle, fs': Fs)
    requires UntaggedImagePath(cfg) in fs'.existing <==> UntaggedImagePath(cfg) in oracle.afterPlatformInstall.existing
    requires UntaggedImagePath(cfg) in fs'.unreadable <==> UntaggedImagePath(cfg) in oracle.afterPlatformInstall.unreadable
    requires DefaultImagePath(cfg) in fs'.existing <==> DefaultImagePath(cfg) in oracle.afterPlatformInstall.existing
    requires DefaultImagePath(cfg) in fs'.unreadable <==> DefaultImagePath(cfg) in oracle.afterPlatformInstall.unreadable
    ensures Execute(cfg, oracle.(afterPlatformInstall := fs')) == Execute(cfg, oracle)
  {
  }

  /**
   * Platform and image already in place, nothing failing, no options:
   * the run creates the AVD and exports its name, and that is all.
   */
  lemma AlreadyInstalledRun(cfg: Config, oracle: Oracle)
    requires Validate(cfg).None? && cfg.options == ""
    requires IsPathExists(oracle.initial, PlatformPath(cfg)) == Success(true)
    requires ProbeSystemImage(oracle.initial, cfg) == Success(true)
    requires oracle.failing == {}
    ensures Execute(cfg, oracle) == Outcome([CreateAvd(cfg, []), ExportName(cfg)], None)
  {
  }

  /** The same for an AVD `Pixel_API_23` on `android-23` / `x86`, spelled out. */
  lemma AlreadyInstalledExample(androidHome: string, oracle: Oracle)
    requires androidHome != ""
    requires var cfg := Config("Pixel_API_23", "android-23", "x86", "", androidHome);
      IsPathExists(oracle.initial, PlatformPath(cfg)) == Success(true) &&
      ProbeSystemImage(oracle.initial, cfg) == Success(true) && oracle.failing == {}
    ensures Execute(Config("Pixel_API_23", "android-23", "x86", "", androidHome), oracle) ==
      Outcome([Exec(["android", "create", "avd", "--force", "--name", "Pixel_API_23",
                     "--target", "android-23", "--abi", "x86"], "n"),
               Export("BITRISE_EMULATOR_NAME", "Pixel_API_23")], None)
  {
    var cfg := Config("Pixel_API_23", "android-23", "x86", "", androidHome);
    AlreadyInstalledRun(cfg, oracle);
    assert ExportName(cfg) == Export("BITRISE_EMULATOR_NAME", "Pixel_API_23");
    assert CreateAvd(cfg, []).argv == ["android", "create", "avd", "--force", "--name", "Pixel_API_23",
                                       "--target", "android-23", "--abi", "x86"];
  }

  // ---- How the step relates to the component and AVD-manager models ----

  /** The install filters are the legacy ids of the platform and of the untagged system image. */
  lemma FiltersAreLegacyIds(cfg: Config)
    ensures InstallPlatform(cfg).argv[6]
         == SdkComponent.GetLegacySDKStylePath(SdkComponent.Platform(cfg.platform, "", ""))
    ensures InstallSystemImage(cfg).argv[6]
         == SdkComponent.GetLegacySDKStylePath(SdkComponent.SystemImage(cfg.platform, cfg.abi, "", "", ""))
  {
  }

  /**
   * The platform path and the second system-image path are the install
   * paths of the corresponding components under the SDK root; the first
   * system-image path is the older layout without a tag directory.
   */
  lemma ProbePathsAreInstallPaths(cfg: Config)
    ensures PlatformPath(cfg) == Join([cfg.androidHome,
      SdkComponent.InstallPathInAndroidHome(SdkComponent.Platform(cfg.platform, "", ""))])
    ensures DefaultImagePath(cfg) == Join([cfg.androidHome,
      SdkComponent.InstallPathInAndroidHome(SdkComponent.SystemImage(cfg.platform, cfg.abi, "", "", ""))])
  {
    JoinNested([cfg.androidHome], ["platforms", cfg.platform]);
    JoinNested([cfg.androidHome], ["system-images", cfg.platform, "default", cfg.abi]);
  }

  /** The create command is the legacy AVD manager's, run as `android`. */
  lemma CreateAvdIsLegacyAvdManagerCommand(cfg: Config, options: seq<string>)
    ensures var c := AvdManager.CreateAVDCommand(AvdManager.Model(true, "android"), cfg.name,
                       SdkComponent.SystemImage(cfg.platform, cfg.abi, "", "", ""), options);
      CreateAvd(cfg, options) == Exec([c.exe] + c.args, "n")
  {
  }
}
