/**
 * The shell commands of src/DockerManager.ts: the five commands that build
 * the application image and copy the result out of a container, and the
 * way they are chained into one command line.
 */
module DockerManager {
  import opened Strings

  /** Where the commands will run: `os.platform()` and the configured Windows shell. */
  datatype Shell = Shell(win32: bool, windowsShell: string)

  /** The Windows shell setting names PowerShell (compared in lower case). */
  predicate IsPowerShell(shell: Shell)
  {
    shell.win32 && Contains(ToLower(shell.windowsShell), "powershell")
  }

  const PowerShellFirst := " ; if ($?) { "
  const PowerShellNext := " } if ($?) { "

  /**
   * The PowerShell chain: each command after the first runs inside an
   * `if ($?) { ... }` guard opened after its predecessor, and the last
   * guard is closed once at the end.
   */
  function PowerShellChain(commands: seq<string>): (r: string)
    ensures |commands| == 1 ==> r == commands[0]
  {
    if |commands| == 0 then ""
    else if |commands| == 1 then commands[0]
    else commands[0] + PowerShellFirst + Join(commands[1..], PowerShellNext) + " }"
  }

  /**
   * `combineCommands`: in PowerShell the guarded chain built by the loop,
   * elsewhere the commands joined by " && ".
   */
  method CombineCommands(shell: Shell, commands: seq<string>) returns (r: string)
    ensures IsPowerShell(shell) ==> r == PowerShellChain(commands)
    ensures !IsPowerShell(shell) ==> r == Join(commands, " && ")
    ensures |commands| == 1 ==> r == commands[0]
  {
    if !IsPowerShell(shell) {
      return Join(commands, " && ");
    }
    var command := "";
    for i := 0 to |commands|
      invariant i == 0 ==> command == ""
      invariant i == 1 ==> command == commands[0]
      invariant i >= 2 ==> command == commands[0] + PowerShellFirst + Join(commands[1..i], PowerShellNext)
    {
      if i == 0 {
        command := commands[0];
      } else if i == 1 {
        command := command + PowerShellFirst + commands[1];
        assert commands[1..2] == [commands[1]];
      } else {
        JoinAppend(commands[1..i], commands[i], PowerShellNext);
        assert commands[1..i + 1] == commands[1..i] + [commands[i]];
        command := command + PowerShellNext + commands[i];
      }
    }
    if |commands| > 1 {
      command := command + " }";
      assert commands[1..|commands|] == commands[1..];
    }
    r := command;
  }

  /** `constructDockerBuildCmd`. */
  function BuildCommand(imagePath: string, path: string): string
  {
    "docker build -t " + imagePath + " " + path + " --network=host"
  }

  /** The shell variable the create command stores the container id in. */
  const ContainerVariable := "cid"

  /** How the copy command refers to a shell variable: `${name}` on Windows, `$name` elsewhere. */
  function VariableReference(win32: bool, name: string): string
  {
    if win32 then "${" + name + "}" else "$" + name
  }

  /** `constructDockerCreateCommand`: stores the new container's id in `cid`. */
  function CreateCommand(win32: bool, imagePath: string): string
  {
    if win32 then "$" + ContainerVariable + " = (docker create " + imagePath + ")"
    else ContainerVariable + "=$(docker create " + imagePath + ")"
  }

  /** The copy command, reading the container id through `reference`. */
  function CopyCommandWith(reference: string, source: string, target: string): string
  {
    "docker cp " + reference + ":/work/AzureBuild/" + source + "/cmake/ " + target
  }

  /**
   * `constructDockerCopyAppCommand` as written: outside Windows it reads
   * `$CID`, a different shell variable from the `cid` the create command set.
   */
  function CopyCommandAsWritten(win32: bool, source: string, target: string): string
  {
    if win32 then CopyCommandWith("${cid}", source, target)
    else CopyCommandWith("$CID", source, target)
  }

  /** The copy command reading the variable the create command set. */
  function CopyCommand(win32: bool, source: string, target: string): string
  {
    CopyCommandWith(VariableReference(win32, ContainerVariable), source, target)
  }

  /**
   * The as-written copy command reads `CID` outside Windows; shell
   * variable names are case-sensitive, so that is not the `cid` set before.
   */
  lemma CopyCommandAsWrittenReadsOtherVariable(source: string, target: string)
    ensures CopyCommandAsWritten(false, source, target) == CopyCommandWith(VariableReference(false, "CID"), source, target)
    ensures "CID" != ContainerVariable
    ensures CopyCommandAsWritten(false, source, target) != CopyCommand(false, source, target)
  {
    var asWritten := CopyCommandAsWritten(false, source, target);
    var fixed := CopyCommand(false, source, target);
    assert asWritten[11] == 'C' && fixed[11] == 'c';
  }

  /** On Windows the as-written command already reads `${cid}`. */
  lemma CopyCommandWindowsAgrees(source: string, target: string)
    ensures CopyCommandAsWritten(true, source, target) == CopyCommand(true, source, target)
  {
  }

  /**
   * The copy command reads the container id from the variable the create
   * command assigned.
   */
  lemma CopyReadsCreatedVariable(win32: bool, imagePath: string, source: string, target: string)
    ensures StartsWith(CreateCommand(win32, imagePath), (if win32 then "$" else "") + ContainerVariable)
    ensures OccursAt(CopyCommand(win32, source, target), VariableReference(win32, ContainerVariable), 10)
  {
  }

  /** `path.join` of two segments, with the platform's separator. */
  function PathJoin(win32: bool, first: string, second: string): string
  {
    first + (if win32 then "\\" else "/") + second
  }

  /** The five build steps, in order. */
  function BuildConfigCommands(win32: bool, projectName: string, imagePath: string, rootPath: string, targetPath: string): (r: seq<string>)
    ensures |r| == 5
    ensures StartsWith(r[0], "docker build -t ")
    ensures r[2] == CreateCommand(win32, imagePath)
    ensures r[3] == CopyCommand(win32, projectName, targetPath)
  {
    [BuildCommand(imagePath, rootPath),
     "echo \"Information: build image with application completed\"",
     CreateCommand(win32, imagePath),
     CopyCommand(win32, projectName, targetPath),
     "echo \"Information: the application is copied into local folder.\""]
  }

  /** `constructCommandForBuildConfig`: the five steps chained for the shell. */
  method ConstructCommandForBuildConfig(shell: Shell, projectName: string, outputFolder: string, imagePath: string, rootPath: string) returns (r: string)
    ensures var commands := BuildConfigCommands(shell.win32, projectName, imagePath, rootPath, PathJoin(shell.win32, rootPath, outputFolder));
      (!IsPowerShell(shell) ==> r == Join(commands, " && ")) &&
      (IsPowerShell(shell) ==> r == PowerShellChain(commands))
  {
    var commands := BuildConfigCommands(shell.win32, projectName, imagePath, rootPath, PathJoin(shell.win32, rootPath, outputFolder));
    r := CombineCommands(shell, commands);
  }
}
