/** The `case "$1" in ... esac` of the generated `ios-test-automator`
    launcher: the first argument alone selects what an invocation does, and
    the arguments after it are kept for the programs that take them. */
module Dispatcher {
  import opened Wrappers

  /** The three long-lived or external programs the launcher can start. */
  datatype Service = Backend | WebUi | RagTool

  /** What one invocation does, decided from its argument vector alone. */
  datatype Action =
    | Launch(service: Service, forwarded: seq<string>)
    | Initialize
    | ProbeStatus
    | EditConfig
    | ShowVersion
    | ShowHelp
    | Reject(token: string)

  /** `"$1"`: the first argument, or the empty string when there is none. */
  function FirstArg(argv: seq<string>): string
  {
    if argv == [] then "" else argv[0]
  }

  /** `"${@:2}"`: every argument after the first, in order and unchanged. */
  function RestArgs(argv: seq<string>): (rest: seq<string>)
    ensures argv != [] ==> argv == [argv[0]] + rest
    ensures argv == [] ==> rest == []
  {
    if argv == [] then [] else argv[1..]
  }

  /** The launcher's `case` statement on the first argument `token`, with
      `rest` the arguments after it. Patterns are matched literally and
      case-sensitively. */
  function Select(token: string, rest: seq<string>): (a: Action)
    ensures a.Launch? ==> a.forwarded == rest
    ensures a.Reject? ==> a.token == token
  {
    match token
    case "server" | "backend" => Launch(Backend, rest)
    case "ui" | "streamlit" => Launch(WebUi, rest)
    case "rag" => Launch(RagTool, rest)
    case "init" => Initialize
    case "status" | "health" => ProbeStatus
    case "config" | "configure" => EditConfig
    case "version" | "--version" | "-v" => ShowVersion
    case "help" | "--help" | "-h" | "" => ShowHelp
    case _ => Reject(token)
  }

  /** The action for a whole argument vector; an absent first argument reads
      as the empty string, which selects help. */
  function Dispatch(argv: seq<string>): (a: Action)
    ensures a.Launch? ==> a.forwarded == RestArgs(argv)
    ensures a.Reject? ==> a.token == FirstArg(argv)
  {
    Select(FirstArg(argv), RestArgs(argv))
  }

  /** An argument vector is its first argument followed by the rest. */
  lemma SplitArgs(t: string, rest: seq<string>)
    ensures FirstArg([t] + rest) == t && RestArgs([t] + rest) == rest
  {
    assert ([t] + rest)[1..] == rest;
  }

  /** What each recognised subcommand selects, whatever follows it. */
  lemma DispatchTable(rest: seq<string>)
    ensures Dispatch(["server"] + rest) == Launch(Backend, rest)
    ensures Dispatch(["ui"] + rest) == Launch(WebUi, rest)
    ensures Dispatch(["rag"] + rest) == Launch(RagTool, rest)
    ensures Dispatch(["init"] + rest) == Initialize
    ensures Dispatch(["status"] + rest) == ProbeStatus
    ensures Dispatch(["config"] + rest) == EditConfig
    ensures Dispatch(["version"] + rest) == ShowVersion
  {
    SplitArgs("server", rest);
    SplitArgs("ui", rest);
    SplitArgs("rag", rest);
    SplitArgs("init", rest);
    SplitArgs("status", rest);
    SplitArgs("config", rest);
    SplitArgs("version", rest);
  }

  /** The subcommands of the command-line surface. */
  datatype Command = Server | Ui | Rag | Init | Status | Config | Version | Help

  /** The command-line surface as a table, independent of the `case`
      statement: every recognised first argument and the subcommand it names. */
  const Surface: map<string, Command> := map[
    "server" := Server, "backend" := Server,
    "ui" := Ui, "streamlit" := Ui,
    "rag" := Rag,
    "init" := Init,
    "status" := Status, "health" := Status,
    "config" := Config, "configure" := Config,
    "version" := Version, "--version" := Version, "-v" := Version,
    "help" := Help, "--help" := Help, "-h" := Help, "" := Help
  ]

  /** The subcommand an action carries out; `None` for the rejection. */
  function CommandOf(a: Action): Option<Command>
  {
    match a
    case Launch(Backend, _) => Some(Server)
    case Launch(WebUi, _) => Some(Ui)
    case Launch(RagTool, _) => Some(Rag)
    case Initialize => Some(Init)
    case ProbeStatus => Some(Status)
    case EditConfig => Some(Config)
    case ShowVersion => Some(Version)
    case ShowHelp => Some(Help)
    case Reject(_) => None
  }

  /** Dispatch follows the table: a first argument in the table selects
      exactly the subcommand the table names, and every other first argument,
      and only those, is rejected. */
  lemma DispatchFollowsSurface(argv: seq<string>)
    ensures Dispatch(argv).Reject? <==> FirstArg(argv) !in Surface
    ensures FirstArg(argv) in Surface ==> CommandOf(Dispatch(argv)) == Some(Surface[FirstArg(argv)])
  {
  }

  /** Each alias selects the same action as the name it stands for, whatever
      follows it. */
  lemma AliasesAgree(rest: seq<string>)
    ensures Dispatch(["backend"] + rest) == Dispatch(["server"] + rest)
    ensures Dispatch(["streamlit"] + rest) == Dispatch(["ui"] + rest)
    ensures Dispatch(["health"] + rest) == Dispatch(["status"] + rest)
    ensures Dispatch(["configure"] + rest) == Dispatch(["config"] + rest)
    ensures Dispatch(["--version"] + rest) == Dispatch(["version"] + rest)
    ensures Dispatch(["-v"] + rest) == Dispatch(["version"] + rest)
  {
    SplitArgs("backend", rest);
    SplitArgs("server", rest);
    SplitArgs("streamlit", rest);
    SplitArgs("ui", rest);
    SplitArgs("health", rest);
    SplitArgs("status", rest);
    SplitArgs("configure", rest);
    SplitArgs("config", rest);
    SplitArgs("--version", rest);
    SplitArgs("version", rest);
    SplitArgs("-v", rest);
  }

  /** `help`, `--help`, `-h`, an empty first argument and no argument at all
      are the same request. */
  lemma HelpForms(rest: seq<string>)
    ensures Dispatch([]) == ShowHelp
    ensures Dispatch([""] + rest) == ShowHelp
    ensures Dispatch(["help"] + rest) == ShowHelp
    ensures Dispatch(["--help"] + rest) == ShowHelp
    ensures Dispatch(["-h"] + rest) == ShowHelp
  {
    SplitArgs("", rest);
    SplitArgs("help", rest);
    SplitArgs("--help", rest);
    SplitArgs("-h", rest);
  }

  /** Only the three launching subcommands look past the first argument:
      for every other recognised subcommand the rest of the line is ignored. */
  lemma OnlyLaunchesReadArguments(argv: seq<string>)
    requires argv != []
    requires !Dispatch(argv).Launch? && !Dispatch(argv).Reject?
    ensures Dispatch(argv) == Dispatch([argv[0]])
  {
  }
}
