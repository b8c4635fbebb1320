/**
 * The workbench folder settings of src/IoTSettings.ts: the default folder
 * for each platform, the configured folder taking precedence, and the
 * single settings instance created on first use.
 */
module IoTSettings {
  import opened Wrappers

  /** `os.platform()` as the settings see it. */
  datatype Platform = Win32 | Linux | Darwin | OtherPlatform(name: string)

  const ProjectsFolder := "IoTWorkbenchProjects"

  /** The path separator of `path.join` on that platform. */
  function Separator(platform: Platform): string
  {
    if platform == Win32 then "\\" else "/"
  }

  /** `path.join` of the given segments (no normalisation of `..` or doubled separators). */
  function JoinPath(platform: Platform, parts: seq<string>): (r: string)
    ensures |parts| == 1 ==> r == parts[0]
  {
    if |parts| == 0 then ""
    else if |parts| == 1 then parts[0]
    else JoinPath(platform, parts[..|parts| - 1]) + Separator(platform) + parts[|parts| - 1]
  }

  /**
   * `getDefaultWorkbenchPath`: the projects folder under the home folder
   * (inside Documents on Windows and macOS), or at the root elsewhere.
   */
  function DefaultWorkbenchPath(platform: Platform, homeDir: string): (r: string)
  {
    match platform
    case Win32 => JoinPath(platform, [homeDir, "Documents", ProjectsFolder])
    case Linux => JoinPath(platform, [homeDir, ProjectsFolder])
    case Darwin => JoinPath(platform, [homeDir, "Documents", ProjectsFolder])
    case OtherPlatform(_) => "/" + ProjectsFolder
  }

  /**
   * On the three known platforms the default folder lies in the home
   * folder and is named IoTWorkbenchProjects; Windows and macOS put it in
   * Documents; elsewhere it is the absolute /IoTWorkbenchProjects.
   */
  lemma DefaultWorkbenchPathShape(platform: Platform, homeDir: string)
    ensures var r := DefaultWorkbenchPath(platform, homeDir);
      var sep := Separator(platform);
      (platform.Win32? || platform.Darwin? ==> r == homeDir + sep + "Documents" + sep + ProjectsFolder) &&
      (platform.Linux? ==> r == homeDir + "/" + ProjectsFolder) &&
      (platform.OtherPlatform? ==> r == "/IoTWorkbenchProjects") &&
      r[|r| - |ProjectsFolder|..] == ProjectsFolder
  {
    var r := DefaultWorkbenchPath(platform, homeDir);
    var sep := Separator(platform);
    match platform
    case Win32 =>
      ThreePartJoin(platform, homeDir);
      SuffixOf(homeDir + sep + "Documents" + sep, ProjectsFolder);
    case Darwin =>
      ThreePartJoin(platform, homeDir);
      SuffixOf(homeDir + sep + "Documents" + sep, ProjectsFolder);
    case Linux =>
      TwoPartJoin(platform, homeDir);
      SuffixOf(homeDir + sep, ProjectsFolder);
    case OtherPlatform(_) =>
      SuffixOf("/", ProjectsFolder);
  }

  /** The last part of a concatenation is its suffix of that length. */
  lemma SuffixOf(x: string, y: string)
    ensures (x + y)[|x + y| - |y|..] == y
  {
  }

  /** Joining home and the projects folder. */
  lemma TwoPartJoin(platform: Platform, homeDir: string)
    ensures JoinPath(platform, [homeDir, ProjectsFolder]) == homeDir + Separator(platform) + ProjectsFolder
  {
    var parts := [homeDir, ProjectsFolder];
    assert parts[..1] == [homeDir];
  }

  /** Joining home, Documents and the projects folder. */
  lemma ThreePartJoin(platform: Platform, homeDir: string)
    ensures JoinPath(platform, [homeDir, "Documents", ProjectsFolder]) ==
      homeDir + Separator(platform) + "Documents" + Separator(platform) + ProjectsFolder
  {
    var parts := [homeDir, "Documents", ProjectsFolder];
    assert parts[..2] == [homeDir, "Documents"];
    assert parts[..2][..1] == [homeDir];
  }

  /** `ConfigHandler.get(...) || fallback`: an unset or empty setting falls back. */
  function ConfiguredOr(configured: Option<string>, fallback: string): (r: string)
    ensures configured.Some? && configured.value != "" ==> r == configured.value
    ensures configured.None? || configured.value == "" ==> r == fallback
  {
    if configured.Some? && configured.value != "" then configured.value else fallback
  }

  /**
   * The settings singleton and the workbench entry of the user
   * configuration it reads and writes.
   */
  class Settings {
    /** The workbench path of the instance, once `getInstance` created it. */
    var instance: Option<string>
    /** The `workbench` entry of the user configuration. */
    var configured: Option<string>

    constructor(configured: Option<string>)
      ensures this.instance.None? && this.configured == configured
    {
      this.instance := None;
      this.configured := configured;
    }

    /**
     * `getInstance`: the first call fixes the instance's path (the
     * configured one, else the platform default) and writes it back to the
     * configuration; later calls change nothing.
     */
    method GetInstance(platform: Platform, homeDir: string) returns (workbenchPath: string)
      modifies this
      ensures old(instance).Some? ==> instance == old(instance) && configured == old(configured)
      ensures old(instance).None? ==>
        instance == Some(ConfiguredOr(old(configured), DefaultWorkbenchPath(platform, homeDir))) &&
        configured == instance
      ensures instance == Some(workbenchPath)
    {
      if instance.None? {
        var path := ConfiguredOr(configured, DefaultWorkbenchPath(platform, homeDir));
        instance := Some(path);
        configured := Some(path);
      }
      workbenchPath := instance.value;
    }

    /** `getWorkbenchPath`: the configured path, else the instance's. */
    function GetWorkbenchPath(): (r: string)
      reads this
      requires instance.Some?
      ensures configured.Some? && configured.value != "" ==> r == configured.value
      ensures configured.None? || configured.value == "" ==> r == instance.value
    {
      ConfiguredOr(configured, instance.value)
    }
  }
}
