/**
 * The `avdmanager` wrapper: choosing the AVD tool binary for an SDK
 * (`New`) and building the command line that creates an AVD
 * (`CreateAVDCommand`). Which SDK generation is installed is decided by
 * `sdkmanager.IsLegacySDKVersion`, which is not part of this model: its
 * answer (or its error) is a parameter.
 */
module AvdManager {
  import opened Wrappers
  import opened Strings
  import opened FileSystem
  import opened SdkComponent

  /** The tool to run: `legacy` selects the old `android` tool. */
  datatype Model = Model(legacy: bool, binPth: string)

  datatype Error =
    | LegacyProbeFailed(cause: string)   // the error of the SDK-version probe, passed on
    | PathCheckFailed(cause: string)     // the error of the existence check, passed on
    | ToolNotFound(path: string)         // the chosen binary does not exist

  /** The text of an error; a missing tool names the path that was looked for. */
  function Message(e: Error): (m: string)
    ensures e.ToolNotFound? ==> |m| >= |e.path| && m[|m| - |e.path|..] == e.path
    ensures !e.ToolNotFound? ==> m == e.cause
  {
    match e
    case LegacyProbeFailed(cause) => cause
    case PathCheckFailed(cause) => cause
    case ToolNotFound(path) => "no sdk manager tool found at: " + path
  }

  /** A process to start: the executable and its arguments. */
  datatype Command = Command(exe: string, args: seq<string>)

  /** The outcome of checking the chosen binary `path` in `fs`. */
  predicate ToolChecked(r: Result<Model, Error>, fs: Fs, path: string, legacy: bool)
  {
    match IsPathExists(fs, path)
    case Failure(cause) => r == Failure(PathCheckFailed(cause))
    case Success(present) =>
      if present then r == Success(Model(legacy, path)) else r == Failure(ToolNotFound(path))
  }

  /**
   * `New`: the modern `tools/bin/avdmanager` unless the SDK is a legacy
   * one, in which case `tools/android`; an error of the SDK-version probe
   * or of the existence check is passed on, and a missing binary is
   * `ToolNotFound` with the path.
   */
  method New(androidHome: string, isLegacySdk: Result<bool, string>, fs: Fs)
    returns (r: Result<Model, Error>)
    ensures isLegacySdk.Failure? ==> r == Failure(LegacyProbeFailed(isLegacySdk.error))
    ensures isLegacySdk == Success(false) ==>
      ToolChecked(r, fs, Join([androidHome, "tools", "bin", "avdmanager"]), false)
    ensures isLegacySdk == Success(true) ==>
      ToolChecked(r, fs, Join([androidHome, "tools", "android"]), true)
    ensures r.Success? ==> isLegacySdk.Success? && r.value.legacy == isLegacySdk.value
                           && r.value.binPth in fs.existing && r.value.binPth !in fs.unreadable
  {
    var binPth := Join([androidHome, "tools", "bin", "avdmanager"]);
    if isLegacySdk.Failure? {
      return Failure(LegacyProbeFailed(isLegacySdk.error));
    }
    var legacy := isLegacySdk.value;
    if legacy {
      binPth := Join([androidHome, "tools", "android"]);
    }
    var probe := IsPathExists(fs, binPth);
    if probe.Failure? {
      return Failure(PathCheckFailed(probe.error));
    }
    if !probe.value {
      return Failure(ToolNotFound(binPth));
    }
    r := Success(Model(legacy, binPth));
  }

  /** Under a non-empty SDK root the two binaries are `tools/bin/avdmanager` and `tools/android`. */
  lemma ToolPaths(androidHome: string)
    requires androidHome != ""
    ensures Join([androidHome, "tools", "bin", "avdmanager"]) == androidHome + "/tools/bin/avdmanager"
    ensures Join([androidHome, "tools", "android"]) == androidHome + "/tools/android"
  {
    NonEmptyOfSegments([androidHome, "tools", "bin", "avdmanager"]);
    JoinWithCons("bin", ["avdmanager"], '/');
    JoinWithCons("tools", ["bin", "avdmanager"], '/');
    assert ["tools", "bin", "avdmanager"] == ["tools"] + ["bin", "avdmanager"];
    JoinWithCons(androidHome, ["tools", "bin", "avdmanager"], '/');
    assert [androidHome, "tools", "bin", "avdmanager"] == [androidHome] + ["tools", "bin", "avdmanager"];
    NonEmptyOfSegments([androidHome, "tools", "android"]);
    JoinWithCons("tools", ["android"], '/');
    JoinWithCons(androidHome, ["tools", "android"], '/');
    assert [androidHome, "tools", "android"] == [androidHome] + ["tools", "android"];
  }

  /**
   * `CreateAVDCommand`: `create avd --force` and the image, then the
   * caller's options. The legacy tool names the image by `--target
   * <platform>`, the modern one by `--package <SDK-style id>`.
   */
  function CreateAVDCommand(model: Model, name: string, systemImage: Component, options: seq<string>)
    : (c: Command)
    requires systemImage.SystemImage?
    ensures c.exe == model.binPth
    ensures |c.args| == 9 + |options| && c.args[9..] == options
    ensures c.args[..3] == ["create", "avd", "--force"] && c.args[8] == systemImage.abi
  {
    var args :=
      if model.legacy then
        ["create", "avd", "--force", "--name", name, "--target", systemImage.platform,
         "--abi", systemImage.abi] + options
      else
        ["create", "avd", "--force", "--package", GetSDKStylePath(systemImage), "--name", name,
         "--abi", systemImage.abi] + options;
    Command(model.binPth, args)
  }

  lemma LegacyCreateArgs(binPth: string, name: string, img: Component, options: seq<string>)
    requires img.SystemImage?
    ensures CreateAVDCommand(Model(true, binPth), name, img, options).args ==
      ["create", "avd", "--force", "--name", name, "--target", img.platform, "--abi", img.abi] + options
  {
  }

  lemma ModernCreateArgs(binPth: string, name: string, img: Component, options: seq<string>)
    requires img.SystemImage?
    ensures CreateAVDCommand(Model(false, binPth), name, img, options).args ==
      ["create", "avd", "--force", "--package", GetSDKStylePath(img), "--name", name, "--abi", img.abi]
      + options
  {
  }

  /**
   * The fixed part of the legacy command has no `--package`, and that of
   * the modern command no `--target`: such a word can only come from the
   * caller's values.
   */
  lemma CreateFlagsByMode(model: Model, name: string, img: Component, options: seq<string>)
    requires img.SystemImage?
    ensures var args := CreateAVDCommand(model, name, img, options).args;
      if model.legacy then
        args[5] == "--target" &&
        ("--package" in args <==> "--package" in [name, img.platform, img.abi] + options)
      else
        args[3] == "--package" &&
        ("--target" in args <==> "--target" in [GetSDKStylePath(img), name, img.abi] + options)
  {
    var args := CreateAVDCommand(model, name, img, options).args;
    if model.legacy {
      assert args == ["create", "avd", "--force", "--name"] + [name] + ["--target"]
                     + [img.platform] + ["--abi"] + [img.abi] + options;
    } else {
      assert args == ["create", "avd", "--force", "--package"] + [GetSDKStylePath(img)] + ["--name"]
                     + [name] + ["--abi"] + [img.abi] + options;
    }
  }
}
