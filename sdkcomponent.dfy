/**
 * SDK component descriptors: the three kinds of Android SDK package the
 * step deals with, and for each the three strings derived from it:
 *  - the SDK-style id used by `sdkmanager`/`avdmanager` (`;`-separated),
 *  - the legacy id used as `android update sdk --filter` (`-`-separated),
 *  - the directory, relative to the SDK root, where it lands once installed.
 * A non-empty `sdkStylePath` or `legacySdkStylePath` overrides the derived id.
 */
module SdkComponent {
  import opened Strings
  import opened FileSystem

  datatype Component =
    | BuildTool(version: string, sdkStylePath: string, legacySdkStylePath: string)
    | Platform(version: string, sdkStylePath: string, legacySdkStylePath: string)
    | SystemImage(platform: string, abi: string, tag: string,
                  sdkStylePath: string, legacySdkStylePath: string)

  /** A missing system-image tag stands for the `default` tag. */
  function TagOrDefault(tag: string): (t: string)
    ensures tag == "" ==> t == "default"
    ensures tag != "" ==> t == tag
  {
    if tag == "" then "default" else tag
  }

  /** `GetSDKStylePath`, e.g. `system-images;android-23;default;x86`. */
  function GetSDKStylePath(c: Component): string
  {
    if c.sdkStylePath != "" then c.sdkStylePath
    else match c
      case BuildTool(version, _, _) => "build-tools;" + version
      case Platform(version, _, _) => "platforms;" + version
      case SystemImage(platform, abi, tag, _, _) =>
        "system-images;" + platform + ";" + TagOrDefault(tag) + ";" + abi
  }

  /**
   * The platform token of a legacy system-image id: a real tag replaces
   * the part of the platform before its one `-` (`android-23` with tag
   * `google_apis` gives `google_apis-23`); a platform that does not split
   * into exactly two pieces at `-` is kept.
   */
  function LegacyPlatformToken(platform: string, tag: string): string
  {
    if tag != "" && tag != "default" then
      var split := Split(platform, '-');
      if |split| == 2 then tag + "-" + split[1] else platform
    else platform
  }

  /** `GetLegacySDKStylePath`, e.g. `sys-img-x86-android-23`. */
  function GetLegacySDKStylePath(c: Component): string
  {
    if c.legacySdkStylePath != "" then c.legacySdkStylePath
    else match c
      case BuildTool(version, _, _) => "build-tools-" + version
      case Platform(version, _, _) => version
      case SystemImage(platform, abi, tag, _, _) =>
        "sys-img-" + abi + "-" + LegacyPlatformToken(platform, tag)
  }

  /** `InstallPathInAndroidHome`, e.g. `system-images/android-23/default/x86`. */
  function InstallPathInAndroidHome(c: Component): string
  {
    match c
    case BuildTool(version, _, _) => Join(["build-tools", version])
    case Platform(version, _, _) => Join(["platforms", version])
    case SystemImage(platform, abi, tag, _, _) =>
      Join(["system-images", platform, TagOrDefault(tag), abi])
  }

  // ---- Overrides ----

  /** A non-empty override is returned verbatim, whatever the other fields hold. */
  lemma OverridesWin(c: Component)
    ensures c.sdkStylePath != "" ==> GetSDKStylePath(c) == c.sdkStylePath
    ensures c.legacySdkStylePath != "" ==> GetLegacySDKStylePath(c) == c.legacySdkStylePath
  {
  }

  /** The install path ignores both overrides. */
  lemma InstallPathIgnoresOverrides(c: Component, s: string, l: string)
    ensures InstallPathInAndroidHome(c.(sdkStylePath := s, legacySdkStylePath := l))
         == InstallPathInAndroidHome(c)
  {
  }

  // ---- Build tools and platforms ----

  lemma BuildToolIds(version: string)
    ensures GetSDKStylePath(BuildTool(version, "", "")) == "build-tools;" + version
    ensures GetLegacySDKStylePath(BuildTool(version, "", "")) == "build-tools-" + version
    ensures IsSegment(version) ==>
      InstallPathInAndroidHome(BuildTool(version, "", "")) == "build-tools/" + version
  {
    if IsSegment(version) {
      NonEmptyOfSegments(["build-tools", version]);
      JoinWithCons("build-tools", [version], '/');
    }
  }

  lemma PlatformIds(version: string)
    ensures GetSDKStylePath(Platform(version, "", "")) == "platforms;" + version
    ensures GetLegacySDKStylePath(Platform(version, "", "")) == version
    ensures IsSegment(version) ==>
      InstallPathInAndroidHome(Platform(version, "", "")) == "platforms/" + version
  {
    if IsSegment(version) {
      NonEmptyOfSegments(["platforms", version]);
      JoinWithCons("platforms", [version], '/');
    }
  }

  // ---- System images ----

  /** An empty tag is the `default` tag for all three derivations. */
  lemma EmptyTagIsDefault(platform: string, abi: string, s: string, l: string)
    ensures GetSDKStylePath(SystemImage(platform, abi, "", s, l))
         == GetSDKStylePath(SystemImage(platform, abi, "default", s, l))
    ensures GetLegacySDKStylePath(SystemImage(platform, abi, "", s, l))
         == GetLegacySDKStylePath(SystemImage(platform, abi, "default", s, l))
    ensures InstallPathInAndroidHome(SystemImage(platform, abi, "", s, l))
         == InstallPathInAndroidHome(SystemImage(platform, abi, "default", s, l))
  {
  }

  /**
   * The SDK-style id of a system image is the four segments
   * `system-images`, platform, tag (or `default`), ABI, and splitting it at
   * `;` recovers them when no field contains `;`.
   */
  lemma SystemImageIdRoundTrip(platform: string, abi: string, tag: string, l: string)
    requires ';' !in platform && ';' !in abi && ';' !in tag
    ensures Split(GetSDKStylePath(SystemImage(platform, abi, tag, "", l)), ';')
         == ["system-images", platform, TagOrDefault(tag), abi]
  {
    var parts := ["system-images", platform, TagOrDefault(tag), abi];
    JoinWithCons(TagOrDefault(tag), [abi], ';');
    JoinWithCons(platform, [TagOrDefault(tag), abi], ';');
    JoinWithCons("system-images", [platform, TagOrDefault(tag), abi], ';');
    assert [platform, TagOrDefault(tag), abi] == [platform] + [TagOrDefault(tag), abi];
    assert parts == ["system-images"] + [platform, TagOrDefault(tag), abi];
    assert GetSDKStylePath(SystemImage(platform, abi, tag, "", l)) == JoinWith(parts, ';');
    SplitJoin(parts, ';');
  }

  /** Without a real tag the legacy id is `sys-img-<abi>-<platform>`. */
  lemma LegacyIdUntagged(platform: string, abi: string, tag: string, s: string)
    requires tag == "" || tag == "default"
    ensures GetLegacySDKStylePath(SystemImage(platform, abi, tag, s, ""))
         == "sys-img-" + abi + "-" + platform
  {
  }

  /**
   * With a real tag and a platform of two `-`-separated pieces, the tag
   * replaces the first piece: `sys-img-<abi>-<tag>-<second piece>`.
   */
  lemma LegacyIdTagged(first: string, second: string, abi: string, tag: string, s: string)
    requires tag != "" && tag != "default"
    requires '-' !in first && '-' !in second
    ensures GetLegacySDKStylePath(SystemImage(first + "-" + second, abi, tag, s, ""))
         == "sys-img-" + abi + "-" + tag + "-" + second
  {
    SplitTwo(first, second, '-');
  }

  /** A platform with no `-`, or with more than one, is left as it is, whatever the tag. */
  lemma LegacyIdKeepsOtherPlatforms(platform: string, abi: string, tag: string, s: string)
    requires Occurrences(platform, '-') != 1
    ensures GetLegacySDKStylePath(SystemImage(platform, abi, tag, s, ""))
         == "sys-img-" + abi + "-" + platform
  {
  }

  /** The worked example: `android-23`, `google_apis`, `x86`. */
  lemma LegacyIdExample()
    ensures GetLegacySDKStylePath(SystemImage("android-23", "x86", "google_apis", "", ""))
         == "sys-img-x86-google_apis-23"
  {
    var first, second := "android", "23";
    assert first + "-" + second == "android-23";
    LegacyIdTagged(first, second, "x86", "google_apis", "");
    assert "sys-img-" + "x86" + "-" + "google_apis" + "-" + second == "sys-img-x86-google_apis-23";
  }

  lemma SdkStyleIdExample()
    ensures GetSDKStylePath(SystemImage("android-23", "x86", "google_apis", "", ""))
         == "system-images;android-23;google_apis;x86"
  {
  }

  /**
   * The install path of a system image always has the four segments
   * `system-images`, platform, tag (or `default`), ABI: there is no
   * three-segment untagged form.
   */
  lemma SystemImageInstallPathSegments(platform: string, abi: string, tag: string, s: string, l: string)
    requires IsSegment(platform) && IsSegment(abi) && '/' !in tag
    ensures Split(InstallPathInAndroidHome(SystemImage(platform, abi, tag, s, l)), '/')
         == ["system-images", platform, TagOrDefault(tag), abi]
  {
    JoinSegments(["system-images", platform, TagOrDefault(tag), abi]);
  }

  lemma InstallPathExample()
    ensures InstallPathInAndroidHome(SystemImage("android-23", "x86", "", "", ""))
         == "system-images/android-23/default/x86"
  {
    var parts := ["system-images", "android-23", "default", "x86"];
    NonEmptyOfSegments(parts);
    JoinWithCons("default", ["x86"], '/');
    JoinWithCons("android-23", ["default", "x86"], '/');
    JoinWithCons("system-images", ["android-23", "default", "x86"], '/');
    assert parts == ["system-images"] + ["android-23", "default", "x86"];
    assert ["android-23", "default", "x86"] == ["android-23"] + ["default", "x86"];
  }
}
