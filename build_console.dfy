/**
 * The build console panel (front-end/src/components/BuildLogsPanel.tsx): an
 * append-only log and the flags `isBuilding`, `isRunning` and `currentStep`,
 * changed in sequence by the simulated build, run and stop actions. The
 * pauses between steps are not modelled, only the resulting state and log;
 * the `Date.now()` id and the locale time of each entry come in as a `Stamp`.
 */
module BuildConsole {
  import opened Wrappers
  import opened Seqs
  import opened Text

  /** A log entry; `kind` is one of 'info', 'success', 'warning', 'error' and 'command'. */
  datatype BuildLog = BuildLog(id: string, timestamp: string, kind: string, message: string, command: Option<string>)

  /** What the clock gives an entry: its id and its displayed time. */
  datatype Stamp = Stamp(id: string, timestamp: string)

  datatype Step = Idle | Building | Running

  /** The entry `addLog(kind, message, command)` creates at the moment `s`. */
  function Entry(s: Stamp, kind: string, message: string, command: Option<string>): BuildLog
  {
    BuildLog(s.id, s.timestamp, kind, message, command)
  }

  const CompiledOutput := "Output written to dist/"
  const Watching := "Watching for file changes..."
  const Stopped := "Development server stopped"
  const Copied := "Logs copied to clipboard"

  const DefaultBuildCommand := "npm run build"
  const DefaultRunCommand := "npm start"

  /**
   * A destructured prop with a default: an absent (`undefined`) prop takes the
   * default, and any given string, the empty one included, is kept.
   */
  function PropOr(prop: Option<string>, fallback: string): (r: string)
    ensures prop.None? ==> r == fallback
    ensures prop.Some? ==> r == prop.value
  {
    match prop
    case None => fallback
    case Some(v) => v
  }

  /** The nine entries the simulated build writes, one stamp each. */
  function BuildScript(buildCommand: string, st: seq<Stamp>): (r: seq<BuildLog>)
    requires |st| == 9
    ensures |r| == 9
  {
    [ Entry(st[0], "command", "$ " + buildCommand, Some(buildCommand)),
      Entry(st[1], "info", "Installing dependencies...", None),
      Entry(st[2], "info", "Found 0 vulnerabilities", None),
      Entry(st[3], "info", "Compiling TypeScript...", None),
      Entry(st[4], "success", "TypeScript compilation completed successfully", None),
      Entry(st[5], "info", "Building production bundle...", None),
      Entry(st[6], "info", "Optimizing assets...", None),
      Entry(st[7], "success", "Build completed successfully!", None),
      Entry(st[8], "info", CompiledOutput, None) ]
  }

  /** The four entries the simulated run writes. */
  function RunScript(runCommand: string, subdomainName: string, st: seq<Stamp>): (r: seq<BuildLog>)
    requires |st| == 4
    ensures |r| == 4
  {
    [ Entry(st[0], "command", "$ " + runCommand, Some(runCommand)),
      Entry(st[1], "info", "Starting development server...", None),
      Entry(st[2], "success", "Server running at https://" + subdomainName + ".subforge.com", None),
      Entry(st[3], "info", Watching, None) ]
  }

  /** The build log opens with the command it runs and closes with where the output went. */
  lemma BuildScriptShape(buildCommand: string, st: seq<Stamp>)
    requires |st| == 9
    ensures BuildScript(buildCommand, st)[0] == BuildLog(st[0].id, st[0].timestamp, "command", "$ " + buildCommand, Some(buildCommand))
    ensures BuildScript(buildCommand, st)[8].message == CompiledOutput
    ensures forall i :: 0 <= i < 9 ==> BuildScript(buildCommand, st)[i].id == st[i].id
    ensures forall i :: 1 <= i < 9 ==> BuildScript(buildCommand, st)[i].command.None?
  {
  }

  /** The run log opens with the command it runs and ends watching for changes. */
  lemma RunScriptShape(runCommand: string, subdomainName: string, st: seq<Stamp>)
    requires |st| == 4
    ensures RunScript(runCommand, subdomainName, st)[0].message == "$ " + runCommand
    ensures RunScript(runCommand, subdomainName, st)[3].message == Watching
    ensures forall i :: 0 <= i < 4 ==> RunScript(runCommand, subdomainName, st)[i].id == st[i].id
  {
  }

  /**
   * When the panel is given no commands, the build log opens with
   * `$ npm run build` and the run log with `$ npm start`.
   */
  lemma DefaultCommandsShown(subdomainName: string, build: seq<Stamp>, run: seq<Stamp>)
    requires |build| == 9 && |run| == 4
    ensures BuildScript(PropOr(None, DefaultBuildCommand), build)[0].message == "$ npm run build"
    ensures BuildScript(PropOr(None, DefaultBuildCommand), build)[0].command == Some("npm run build")
    ensures RunScript(PropOr(None, DefaultRunCommand), subdomainName, run)[0].message == "$ npm start"
    ensures RunScript(PropOr(None, DefaultRunCommand), subdomainName, run)[0].command == Some("npm start")
  {
    BuildScriptShape(DefaultBuildCommand, build);
    RunScriptShape(DefaultRunCommand, subdomainName, run);
  }

  /** One line of the copied text: `[timestamp] message`. */
  function CopyLine(l: BuildLog): string
  {
    "[" + l.timestamp + "] " + l.message
  }

  /** The text `copyLogs` puts on the clipboard: one line per entry, joined by new lines. */
  function CopyText(logs: seq<BuildLog>): (t: string)
    ensures logs == [] ==> t == ""
  {
    Join(Map(logs, CopyLine), "\n")
  }

  /** The copied text reads back entry by entry, when no timestamp or message holds a line break. */
  lemma CopyTextLines(logs: seq<BuildLog>)
    requires logs != []
    requires forall i :: 0 <= i < |logs| ==> '\n' !in logs[i].timestamp && '\n' !in logs[i].message
    ensures Split(CopyText(logs), '\n') == Map(logs, CopyLine)
  {
    var lines := Map(logs, CopyLine);
    forall i | 0 <= i < |lines|
      ensures '\n' !in lines[i]
    {
      assert lines[i] == "[" + logs[i].timestamp + "] " + logs[i].message;
    }
    assert "\n" == ['\n'];
    SplitJoin(lines, '\n');
  }

  /** `getLogIcon(type)`. */
  function LogIcon(kind: string): (icon: string)
    ensures kind == "success" ==> icon == "✓"
    ensures kind == "error" ==> icon == "✗"
    ensures kind == "warning" ==> icon == "⚠"
    ensures kind == "command" ==> icon == "$"
    ensures kind !in {"success", "error", "warning", "command"} <==> icon == "•"
  {
    match kind
    case "success" => "✓"
    case "error" => "✗"
    case "warning" => "⚠"
    case "command" => "$"
    case _ => "•"
  }

  /** `getLogColor(type)`. */
  function LogColor(kind: string): (color: string)
    ensures kind == "success" ==> color == "text-success"
    ensures kind == "error" ==> color == "text-error"
    ensures kind == "warning" ==> color == "text-warning"
    ensures kind == "command" ==> color == "text-electric"
    ensures kind !in {"success", "error", "warning", "command"} <==> color == "text-gray-300"
  {
    match kind
    case "success" => "text-success"
    case "error" => "text-error"
    case "warning" => "text-warning"
    case "command" => "text-electric"
    case _ => "text-gray-300"
  }

  /** The panel's state cells. */
  class Console {
    var logs: seq<BuildLog>
    var isBuilding: bool
    var isRunning: bool
    var currentStep: Step

    constructor ()
      ensures logs == [] && !isBuilding && !isRunning && currentStep == Idle
    {
      logs := [];
      isBuilding := false;
      isRunning := false;
      currentStep := Idle;
    }

    /** `addLog`: exactly one entry at the end; the earlier entries and the flags stay. */
    method AddLog(s: Stamp, kind: string, message: string, command: Option<string>)
      modifies this
      ensures logs == old(logs) + [Entry(s, kind, message, command)]
      ensures isBuilding == old(isBuilding) && isRunning == old(isRunning) && currentStep == old(currentStep)
    {
      logs := logs + [Entry(s, kind, message, command)];
    }

    /** The first three updates of `simulateBuildProcess`: building, and an empty log. */
    method BeginBuild()
      modifies this
      ensures isBuilding && currentStep == Building && logs == []
      ensures isRunning == old(isRunning)
    {
      isBuilding := true;
      currentStep := Building;
      logs := [];
    }

    /**
     * `simulateBuildProcess`: the log is cleared and then holds the nine build
     * entries; the build ends idle. A running server stays marked as running.
     */
    method SimulateBuild(buildCommand: string, st: seq<Stamp>)
      requires |st| == 9
      modifies this
      ensures logs == BuildScript(buildCommand, st)
      ensures !isBuilding && currentStep == Idle && isRunning == old(isRunning)
    {
      BeginBuild();
      AddLog(st[0], "command", "$ " + buildCommand, Some(buildCommand));
      AddLog(st[1], "info", "Installing dependencies...", None);
      AddLog(st[2], "info", "Found 0 vulnerabilities", None);
      AddLog(st[3], "info", "Compiling TypeScript...", None);
      AddLog(st[4], "success", "TypeScript compilation completed successfully", None);
      AddLog(st[5], "info", "Building production bundle...", None);
      AddLog(st[6], "info", "Optimizing assets...", None);
      AddLog(st[7], "success", "Build completed successfully!", None);
      AddLog(st[8], "info", CompiledOutput, None);
      isBuilding := false;
      currentStep := Idle;
    }

    /** `simulateRunProcess`: running, with the four run entries appended; nothing returns it to idle. */
    method SimulateRun(runCommand: string, subdomainName: string, st: seq<Stamp>)
      requires |st| == 4
      modifies this
      ensures isRunning && currentStep == Running
      ensures logs == old(logs) + RunScript(runCommand, subdomainName, st)
      ensures isBuilding == old(isBuilding)
    {
      isRunning := true;
      currentStep := Running;
      AddLog(st[0], "command", "$ " + runCommand, Some(runCommand));
      AddLog(st[1], "info", "Starting development server...", None);
      AddLog(st[2], "success", "Server running at https://" + subdomainName + ".subforge.com", None);
      AddLog(st[3], "info", Watching, None);
    }

    /** `stopRunProcess`: stopped and idle, with one warning appended. */
    method StopRun(s: Stamp)
      modifies this
      ensures !isRunning && currentStep == Idle
      ensures logs == old(logs) + [Entry(s, "warning", Stopped, None)]
      ensures isBuilding == old(isBuilding)
    {
      isRunning := false;
      currentStep := Idle;
      AddLog(s, "warning", Stopped, None);
    }

    /** `clearLogs`. */
    method ClearLogs()
      modifies this
      ensures logs == []
      ensures isBuilding == old(isBuilding) && isRunning == old(isRunning) && currentStep == old(currentStep)
    {
      logs := [];
    }

    /** `copyLogs`: the text of the log as it was, after which the log records the copy. */
    method CopyLogs(s: Stamp) returns (text: string)
      modifies this
      ensures text == CopyText(old(logs))
      ensures logs == old(logs) + [Entry(s, "info", Copied, None)]
      ensures isBuilding == old(isBuilding) && isRunning == old(isRunning) && currentStep == old(currentStep)
    {
      text := CopyText(logs);
      AddLog(s, "info", Copied, None);
    }
  }
}
