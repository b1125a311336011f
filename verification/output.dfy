/** The lines the two generated scripts print on standard output. Each `echo`
    of the scripts is one `Line`; `Text` gives its exact characters. Keeping
    lines as values lets the rest of the model speak of which message was
    printed without re-reading the characters. */
module Output {

  /** The position of a non-blank help line after the version line. */
  type HelpIndex = n: nat | n < 18

  /** The number of a step in init's "Next steps" list. */
  type StepNumber = n: nat | 1 <= n <= 4 witness 1

  datatype Line =
    | Blank
      // status / health
    | CheckingStatus
    | BackendRunning
    | BackendNotRunning
    | UiRunning
    | UiNotRunning
      // version and the first line of help
    | VersionLine(version: string)
      // the non-blank lines of help after the version line, numbered from 0
    | HelpLine(n: HelpIndex)
      // unknown command
    | UnknownCommand(token: string)
    | HelpHint
      // init
    | InitBanner
    | ConfigCreated(configDir: string)
    | ConfigExists(configDir: string)
    | ConfigPath(configDir: string)
    | RagStorePath(configDir: string)
    | RecordingsPath(configDir: string)
    | DirectoryHeader
    | NextStepsHeader
    | NextStep(step: StepNumber)

  /** The exact characters of a line, without its trailing newline. The
      `echo ""` separator prints nothing else, and the text a user supplied
      (the version interpolated at install time, the rejected token) is
      printed verbatim after a fixed prefix. */
  function Text(l: Line): (t: string)
    ensures l.Blank? ==> t == []
    ensures l.VersionLine? ==> |t| == 20 + |l.version| && t[20..] == l.version
    ensures l.UnknownCommand? ==> |t| == 17 + |l.token| && t[17..] == l.token
  {
    match l
    case Blank => ""
    case CheckingStatus => "🔍 Checking system status..."
    case BackendRunning => "✅ Backend is running (http://localhost:8000)"
    case BackendNotRunning => "❌ Backend is not running"
    case UiRunning => "✅ UI is running (http://localhost:8501)"
    case UiNotRunning => "❌ UI is not running"
    case VersionLine(v) => "iOS Test Automator v" + v
    case HelpLine(n) => HelpText(n)
    case UnknownCommand(t) => "Unknown command: " + t
    case HelpHint => "Run 'ios-test-automator help' for usage information"
    case InitBanner => "🚀 iOS Test Automator - Initialization"
    case ConfigCreated(c) => "✅ Created config file: " + c + "/.env"
    case ConfigExists(c) => "✅ Config file already exists: " + c + "/.env"
    case ConfigPath(c) => "   Config:     " + c + "/.env"
    case RagStorePath(c) => "   RAG Store:  " + c + "/rag_store"
    case RecordingsPath(c) => "   Recordings: " + c + "/recordings"
    case DirectoryHeader => "📦 Directory structure:"
    case NextStepsHeader => "🎯 Next steps:"
    case NextStep(n) =>
      if n == 1 then "   1. Add API key:    ios-test-automator config"
      else if n == 2 then "   2. Index your app: ios-test-automator rag ingest --app-dir /path/to/app"
      else if n == 3 then "   3. Start backend:  ios-test-automator server"
      else "   4. Launch UI:      ios-test-automator ui"
  }

  /** The text of `HelpLine(n)`: the non-blank lines of help after the
      version line, in the order help prints them. */
  function HelpText(n: HelpIndex): string
  {
    match n
    case 0 => "AI-powered iOS test automation with RAG-enhanced test generation"
    case 1 => "Usage: ios-test-automator <command> [options]"
    case 2 => "Commands:"
    case 3 => "  server              Start the FastAPI backend server"
    case 4 => "  ui                  Launch the Streamlit web interface"
    case 5 => "  rag <subcommand>    Manage RAG vector store"
    case 6 => "  init                Initialize configuration and directories"
    case 7 => "  status              Check system health and status"
    case 8 => "  config              Edit configuration file"
    case 9 => "  version             Show version information"
    case 10 => "  help                Show this help message"
    case 11 => "Examples:"
    case 12 => "  ios-test-automator init"
    case 13 => "  ios-test-automator rag ingest --app-dir ~/Projects/MyApp/Sources"
    case 14 => "  ios-test-automator server"
    case 15 => "  ios-test-automator ui"
    case 16 => "Configuration: ~/.ios-test-automator/.env"
    case _ => "Documentation: https://github.com/mheryerznkanyan/iOS-test-automator"
  }

  /** Everything `help` prints: the version line, then the description,
      synopsis, command list, examples and the configuration and documentation lines, with blank separators. */
  function Usage(version: string): (lines: seq<Line>)
    ensures |lines| == 24 && lines[0] == VersionLine(version)
    ensures forall i :: 1 <= i < |lines| ==> !lines[i].VersionLine?
  {
    [ VersionLine(version), Blank,
      HelpLine(0), Blank,
      HelpLine(1), Blank,
      HelpLine(2), HelpLine(3), HelpLine(4), HelpLine(5), HelpLine(6),
      HelpLine(7), HelpLine(8), HelpLine(9), HelpLine(10), Blank,
      HelpLine(11), HelpLine(12), HelpLine(13), HelpLine(14), HelpLine(15), Blank,
      HelpLine(16), HelpLine(17) ]
  }

  /** The product name the formula's test looks for in `version` output. */
  const ProductName := "iOS Test Automator"

  /** The version line starts with the product name and ends with the
      version, so `version` output contains "iOS Test Automator". */
  lemma VersionLineText(v: string)
    ensures ProductName <= Text(VersionLine(v))
    ensures Text(VersionLine(v))[|Text(VersionLine(v))| - |v|..] == v
  {
  }

  /** The unknown-command message names the offending token verbatim, after
      a fixed prefix, so two different tokens never print the same line. */
  lemma UnknownCommandNamesToken(t: string, u: string)
    ensures "Unknown command: " <= Text(UnknownCommand(t))
    ensures Text(UnknownCommand(t)) == Text(UnknownCommand(u)) <==> t == u
  {
    if Text(UnknownCommand(t)) == Text(UnknownCommand(u)) {
      var n := |"Unknown command: "|;
      assert t == Text(UnknownCommand(t))[n..];
    }
  }
}
