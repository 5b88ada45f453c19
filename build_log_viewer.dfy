/**
 * The build log viewer opened from the dashboard
 * (front-end/src/components/BuildLogsPanel.jsx): the log state the mount
 * effect fills with a fixed mock log, the clear handler, and the text and
 * file name of the download. The browser download itself is not modelled.
 */
module BuildLogViewer {
  import opened Wrappers
  import opened Seqs
  import opened Text

  /** A log line as the viewer holds it. */
  datatype LogLine = LogLine(timestamp: string, level: string, message: string)

  /** The seven entries the effect loads. */
  const MockLogs: seq<LogLine> := [
    LogLine("2024-01-15 10:30:15", "info", "Starting build process..."),
    LogLine("2024-01-15 10:30:16", "info", "Installing dependencies..."),
    LogLine("2024-01-15 10:30:45", "info", "npm install completed successfully"),
    LogLine("2024-01-15 10:30:46", "info", "Running build command: npm run build"),
    LogLine("2024-01-15 10:31:20", "success", "Build completed successfully"),
    LogLine("2024-01-15 10:31:21", "info", "Deploying to subdomain..."),
    LogLine("2024-01-15 10:31:25", "success", "Deployment successful! Site is now live.")
  ]

  /** A truthy `subdomainId`: present and not the empty string. */
  predicate HasId(subdomainId: Option<string>)
  {
    subdomainId.Some? && subdomainId.value != ""
  }

  /** One line of the download: `[timestamp] LEVEL: message`. */
  function DownloadLine(l: LogLine): string
  {
    "[" + l.timestamp + "] " + ToUpper(l.level) + ": " + l.message
  }

  /** The text of the downloaded file: one line per entry, joined by new lines. */
  function DownloadText(logs: seq<LogLine>): (t: string)
    ensures logs == [] ==> t == ""
    ensures |logs| == 1 ==> t == DownloadLine(logs[0])
  {
    Join(Map(logs, DownloadLine), "\n")
  }

  /** The downloaded file reads back entry by entry, when no field holds a line break. */
  lemma DownloadTextLines(logs: seq<LogLine>)
    requires logs != []
    requires forall i :: 0 <= i < |logs| ==>
      '\n' !in logs[i].timestamp && '\n' !in logs[i].level && '\n' !in logs[i].message
    ensures Split(DownloadText(logs), '\n') == Map(logs, DownloadLine)
  {
    var lines := Map(logs, DownloadLine);
    forall i | 0 <= i < |lines|
      ensures '\n' !in lines[i]
    {
      var l := logs[i];
      assert '\n' !in ToUpper(l.level) by {
        forall k | 0 <= k < |l.level|
          ensures ToUpper(l.level)[k] != '\n'
        {
          assert l.level[k] != '\n';
        }
      }
      assert lines[i] == "[" + l.timestamp + "] " + ToUpper(l.level) + ": " + l.message;
    }
    assert "\n" == ['\n'];
    SplitJoin(lines, '\n');
  }

  /** `subdomain-${subdomainId}-logs.txt`; a missing id prints as `null`. */
  function DownloadName(subdomainId: Option<string>): (name: string)
    ensures subdomainId.Some? ==> name == "subdomain-" + subdomainId.value + "-logs.txt"
    ensures subdomainId.None? ==> name == "subdomain-null-logs.txt"
  {
    "subdomain-" + (if subdomainId.Some? then subdomainId.value else "null") + "-logs.txt"
  }

  /** `getLevelColor(level)`. */
  function LevelColor(level: string): (color: string)
    ensures level == "error" ==> color == "text-red-400"
    ensures level == "warning" ==> color == "text-yellow-400"
    ensures level == "success" ==> color == "text-green-400"
    ensures level !in {"error", "warning", "success"} <==> color == "text-gray-300"
  {
    match level
    case "error" => "text-red-400"
    case "warning" => "text-yellow-400"
    case "success" => "text-green-400"
    case _ => "text-gray-300"
  }

  /** The viewer's log state cell. */
  class Viewer {
    var logs: seq<LogLine>

    constructor ()
      ensures logs == []
    {
      logs := [];
    }

    /** The effect run when `isOpen` or `subdomainId` changes: the mock log loads only when open with an id. */
    method LoadEffect(isOpen: bool, subdomainId: Option<string>)
      modifies this
      ensures isOpen && HasId(subdomainId) ==> logs == MockLogs
      ensures !(isOpen && HasId(subdomainId)) ==> logs == old(logs)
    {
      if isOpen && HasId(subdomainId) {
        logs := MockLogs;
      }
    }

    /** `handleClearLogs`. */
    method ClearLogs()
      modifies this
      ensures logs == []
    {
      logs := [];
    }

    /** `handleDownloadLogs`: the file it would save, as a name and a text; the log is not changed. */
    method Download(subdomainId: Option<string>) returns (name: string, text: string)
      ensures name == DownloadName(subdomainId) && text == DownloadText(logs)
    {
      name := DownloadName(subdomainId);
      text := DownloadText(logs);
    }
  }
}
