/** One invocation of the generated `ios-test-automator` launcher, from its
    argument vector to what it prints, what it starts, the file system it
    leaves and its exit status. */
module Cli {
  import opened Wrappers
  import opened Paths
  import opened Files
  import opened Processes
  import opened Output
  import opened Dispatcher
  import opened Launcher
  import HealthProbe
  import InitScript

  /** Everything an invocation depends on besides its arguments: the file
      system, the user's home directory, what the two probes find, the
      `EDITOR` variable (`None` when unset) and the exit status that the
      external program it starts, if any, returns. */
  datatype World = World(
    fs: FileSystem,
    home: Path,
    backendReachable: bool,
    uiReachable: bool,
    editor: Option<string>,
    childExit: ExitStatus)

  /** Standard output, the external program started (if any), the file
      system afterwards and the launcher's exit status. */
  datatype Outcome = Outcome(stdout: seq<Line>, launched: Option<Process>, fs: FileSystem, exit: ExitStatus)

  /** `cd dir && program prefix... args...`: a missing directory makes `cd`
      fail with status 1 and nothing starts; otherwise the program starts in
      that directory with the fixed prefix followed by `args`, and its status
      is the launcher's. The launcher itself prints nothing and changes no
      file either way. */
  function Start(fs: FileSystem, r: Recipe, args: seq<string>, childExit: ExitStatus): (o: Outcome)
    ensures o.stdout == [] && o.fs == fs
    ensures o.launched.Some? <==> r.dir in fs.dirs
    ensures o.launched.Some? ==> && o.launched.value.dir == Some(r.dir)
                                 && o.launched.value.program == Render(r.program)
                                 && o.launched.value.args == r.prefix + args
                                 && o.exit == childExit
    ensures o.launched.None? ==> o.exit == 1
  {
    if r.dir in fs.dirs then Outcome([], Some(Process(Some(r.dir), Render(r.program), r.prefix + args)), fs, childExit)
    else Outcome([], None, fs, 1)
  }

  /** What the launcher does once `Dispatch` has chosen action `a`. Of the
      launcher's own commands (the programs it starts are opaque, so what
      they do to files is not part of the outcome):
      - the rejection prints the unknown-command message naming the token and
        the help hint, starts nothing, changes nothing and exits 1;
      - a launch whose directory exists starts the service's program there
        with the fixed prefix followed by the forwarded arguments, and exits
        with the program's status; one whose directory is missing prints
        nothing, starts nothing and exits 1;
      - only the init script changes the file system, and it never changes
        an existing regular file;
      - of the programs modelled as opaque processes (the three services and
        the editor), only a launch or `config` starts one;
      - a non-zero exit comes from the rejection, a failed `cd`, or the
        status of the program started. */
  function Execute(inst: Install, w: World, a: Action): (o: Outcome)
    ensures a.Reject? ==> o == Outcome([UnknownCommand(a.token), HelpHint], None, w.fs, 1)
    ensures a.Launch? && RecipeFor(inst, a.service).dir in w.fs.dirs
            ==> && o.launched.Some?
                && o.launched.value.args == RecipeFor(inst, a.service).prefix + a.forwarded
                && o.exit == w.childExit
    ensures a.Launch? && RecipeFor(inst, a.service).dir in w.fs.dirs
            ==> var r := RecipeFor(inst, a.service);
                o == Outcome([], Some(Process(Some(r.dir), Render(r.program), r.prefix + a.forwarded)), w.fs, w.childExit)
    ensures a.Launch? && RecipeFor(inst, a.service).dir !in w.fs.dirs
            ==> o == Outcome([], None, w.fs, 1)
    ensures a == Initialize
            ==> && o.stdout == InitScript.Report(w.home, InitScript.EnvFile(w.home) in w.fs.files)
                && o.exit == 0
                && (forall p :: p in o.fs.files && p !in w.fs.files ==> p == InitScript.EnvFile(w.home))
                && (InitScript.EnvFile(w.home) in o.fs.files && InitScript.EnvFile(w.home) !in w.fs.files
                    ==> o.fs.files[InitScript.EnvFile(w.home)] == InitScript.EnvTemplate)
                && w.fs.dirs <= o.fs.dirs <= w.fs.dirs + InitScript.LayoutDirs(w.home)
    ensures a == EditConfig
            ==> && o.stdout == [] && o.fs == w.fs
                && o.launched == Some(EditorProcess(w.editor, Render(InitScript.EnvFile(w.home))))
                && o.exit == w.childExit
    ensures a != Initialize ==> o.fs == w.fs
    ensures forall p :: p in w.fs.files ==> p in o.fs.files && o.fs.files[p] == w.fs.files[p]
    ensures o.launched.Some? ==> a.Launch? || a == EditConfig
    ensures o.exit != 0 ==> || a.Reject?
                            || (o.launched.Some? && o.exit == w.childExit)
                            || (a.Launch? && o.launched == None && o.exit == 1)
  {
    match a
    case Launch(s, rest) =>
      Start(w.fs, RecipeFor(inst, s), rest, w.childExit)
    case Initialize =>
      var r := InitScript.Init(w.fs, w.home);
      Outcome(r.stdout, None, r.fs, r.exit)
    case ProbeStatus =>
      var r := HealthProbe.Probe(w.backendReachable, w.uiReachable);
      Outcome(r.stdout, None, w.fs, r.exit)
    case EditConfig =>
      Outcome([], Some(EditorProcess(w.editor, Render(InitScript.EnvFile(w.home)))), w.fs, w.childExit)
    case ShowVersion =>
      Outcome([VersionLine(inst.version)], None, w.fs, 0)
    case ShowHelp =>
      Outcome(Usage(inst.version), None, w.fs, 0)
    case Reject(t) =>
      Outcome([UnknownCommand(t), HelpHint], None, w.fs, 1)
  }

  /** One invocation of the launcher on `argv`: the first argument selects
      the action, and only the arguments after it reach a launched program. */
  function Run(inst: Install, w: World, argv: seq<string>): (o: Outcome)
    ensures Dispatch(argv).Launch? && o.launched.Some?
            ==> o.launched.value.args == RecipeFor(inst, Dispatch(argv).service).prefix + RestArgs(argv)
    ensures Dispatch(argv).Reject? ==> o == Outcome([UnknownCommand(FirstArg(argv)), HelpHint], None, w.fs, 1)
    ensures o.fs != w.fs ==> Dispatch(argv) == Initialize
  {
    Execute(inst, w, Dispatch(argv))
  }

  /** A first argument outside the command-line surface, and only such an
      argument, prints the unknown-command message naming it and the help
      hint, starts nothing, changes nothing and exits 1. */
  lemma RejectsOffSurface(inst: Install, w: World, argv: seq<string>)
    ensures FirstArg(argv) !in Surface
            <==> Run(inst, w, argv) == Outcome([UnknownCommand(FirstArg(argv)), HelpHint], None, w.fs, 1)
  {
    DispatchFollowsSurface(argv);
  }

  /** A launching subcommand whose directory exists hands its program the
      fixed prefix followed by exactly the arguments after the first, and
      exits with the program's status. */
  lemma ForwardsArguments(inst: Install, w: World, argv: seq<string>)
    requires Dispatch(argv).Launch?
    requires RecipeFor(inst, Dispatch(argv).service).dir in w.fs.dirs
    ensures argv != []
    ensures Run(inst, w, argv).launched.Some?
    ensures Run(inst, w, argv).launched.value.args == RecipeFor(inst, Dispatch(argv).service).prefix + argv[1..]
    ensures Run(inst, w, argv).exit == w.childExit
  {
  }

  /** The three component directories the launching subcommands `cd` into
      exist. */
  predicate Installed(inst: Install, fs: FileSystem) {
    && RecipeFor(inst, Backend).dir in fs.dirs
    && RecipeFor(inst, WebUi).dir in fs.dirs
    && RecipeFor(inst, RagTool).dir in fs.dirs
  }

  /** `server`, `ui` and `rag` (and the aliases) each need only their own
      component directory: when it exists they start their program inside
      it, with the fixed prefix and then exactly the arguments that followed
      the subcommand; they print nothing of their own and exit with the
      program's status. */
  lemma LaunchSubcommands(inst: Install, w: World, rest: seq<string>)
    ensures inst.libexec + ["python-backend"] in w.fs.dirs
            ==> Run(inst, w, ["server"] + rest) == Outcome([], Some(Process(
              Some(inst.libexec + ["python-backend"]), Render(inst.libexec + ["bin", "python"]),
              ["main.py"] + rest)), w.fs, w.childExit)
    ensures inst.libexec + ["streamlit-ui"] in w.fs.dirs
            ==> Run(inst, w, ["ui"] + rest) == Outcome([], Some(Process(
              Some(inst.libexec + ["streamlit-ui"]), Render(inst.libexec + ["bin", "streamlit"]),
              ["run", "app.py"] + rest)), w.fs, w.childExit)
    ensures inst.libexec + ["python-rag"] in w.fs.dirs
            ==> Run(inst, w, ["rag"] + rest) == Outcome([], Some(Process(
              Some(inst.libexec + ["python-rag"]), Render(inst.libexec + ["bin", "python"]),
              ["ios_rag_mvp.py"] + rest)), w.fs, w.childExit)
  {
    DispatchTable(rest);
  }

  /** `rag` alone needs only its own directory: it starts the RAG script
      with exactly the arguments that followed it. */
  lemma RagForwards(inst: Install, w: World, rest: seq<string>)
    requires RecipeFor(inst, RagTool).dir in w.fs.dirs
    ensures Run(inst, w, ["rag"] + rest).launched
            == Some(Process(Some(inst.libexec + ["python-rag"]), Render(inst.libexec + ["bin", "python"]),
                            ["ios_rag_mvp.py"] + rest))
  {
    DispatchTable(rest);
  }

  /** `rag ingest --app-dir /x` hands the RAG tool exactly
      `ingest --app-dir /x` after its script name. */
  lemma RagIngestForwarded(inst: Install, w: World)
    requires RecipeFor(inst, RagTool).dir in w.fs.dirs
    ensures Run(inst, w, ["rag", "ingest", "--app-dir", "/x"]).launched
            == Some(Process(Some(inst.libexec + ["python-rag"]), Render(inst.libexec + ["bin", "python"]),
                            ["ios_rag_mvp.py", "ingest", "--app-dir", "/x"]))
  {
    var args := ["ingest", "--app-dir", "/x"];
    assert ["rag", "ingest", "--app-dir", "/x"] == ["rag"] + args;
    assert ["ios_rag_mvp.py", "ingest", "--app-dir", "/x"] == ["ios_rag_mvp.py"] + args;
    RagForwards(inst, w, args);
  }

  /** When the install is complete and every program started succeeds, the
      launcher exits non-zero exactly for a first argument outside the
      command-line surface. */
  lemma FailsOnlyOnUnknown(inst: Install, w: World, argv: seq<string>)
    requires w.childExit == 0 && Installed(inst, w.fs)
    ensures Run(inst, w, argv).exit != 0 <==> FirstArg(argv) !in Surface
  {
    DispatchFollowsSurface(argv);
  }

  /** Help in all its forms, an empty first argument and no argument at all
      print the same usage text (whose first line is the version line),
      start nothing, change nothing and exit 0. */
  lemma HelpOutputsAgree(inst: Install, w: World, rest: seq<string>)
    ensures Run(inst, w, []) == Outcome(Usage(inst.version), None, w.fs, 0)
    ensures Run(inst, w, [""] + rest) == Run(inst, w, [])
    ensures Run(inst, w, ["help"] + rest) == Run(inst, w, [])
    ensures Run(inst, w, ["--help"] + rest) == Run(inst, w, [])
    ensures Run(inst, w, ["-h"] + rest) == Run(inst, w, [])
  {
    HelpForms(rest);
  }

  /** `version`, `--version` and `-v` print the version line alone, which
      starts with "iOS Test Automator", and exit 0. */
  lemma VersionOutput(inst: Install, w: World, rest: seq<string>)
    ensures Run(inst, w, ["version"] + rest) == Outcome([VersionLine(inst.version)], None, w.fs, 0)
    ensures Run(inst, w, ["--version"] + rest) == Run(inst, w, ["version"] + rest)
    ensures Run(inst, w, ["-v"] + rest) == Run(inst, w, ["version"] + rest)
    ensures ProductName <= Text(Run(inst, w, ["version"] + rest).stdout[0])
  {
    AliasesAgree(rest);
    DispatchTable(rest);
    VersionLineText(inst.version);
  }

  /** For every combination of probe results, `status` and `health` exit 0,
      start nothing, change nothing, and print a report from which the two
      probe results read back exactly. */
  lemma StatusNeverFails(inst: Install, w: World, rest: seq<string>)
    ensures Run(inst, w, ["health"] + rest) == Run(inst, w, ["status"] + rest)
    ensures Run(inst, w, ["status"] + rest).exit == 0
    ensures Run(inst, w, ["status"] + rest).launched == None
    ensures Run(inst, w, ["status"] + rest).fs == w.fs
    ensures HealthProbe.ReadProbes(Run(inst, w, ["status"] + rest).stdout)
            == Some((w.backendReachable, w.uiReachable))
  {
    AliasesAgree(rest);
    DispatchTable(rest);
    HealthProbe.ProbeReadsBack(w.backendReachable, w.uiReachable);
  }

  /** For every `EDITOR`, `config` and its alias start exactly the process
      `${EDITOR:-nano} "$HOME/.ios-test-automator/.env"`, print nothing,
      change nothing, ignore the rest of the line, and exit with the
      editor's status. */
  lemma ConfigRunsEditor(inst: Install, w: World, rest: seq<string>)
    ensures Run(inst, w, ["configure"] + rest) == Run(inst, w, ["config"] + rest)
    ensures Run(inst, w, ["config"] + rest)
            == Outcome([], Some(EditorProcess(w.editor, Render(InitScript.EnvFile(w.home)))), w.fs, w.childExit)
  {
    AliasesAgree(rest);
    DispatchTable(rest);
  }

  /** `config` opens `$HOME/.ios-test-automator/.env` in `nano` when `EDITOR`
      is unset or empty, ignores the rest of the line, and exits with the
      editor's status. */
  lemma ConfigOpensEnvFile(inst: Install, w: World, rest: seq<string>)
    requires w.editor == None || w.editor == Some("")
    ensures Run(inst, w, ["config"] + rest)
            == Outcome([], Some(Process(None, "nano", [Render(InitScript.EnvFile(w.home))])), w.fs, w.childExit)
  {
    DispatchTable(rest);
    DefaultEditorIsNano(w.editor, Render(InitScript.EnvFile(w.home)));
  }

  /** Running `init` a second time leaves the file system exactly as the
      first run left it, and reports that `.env` already exists whenever the
      first run left one. */
  lemma InitTwiceIsInitOnce(inst: Install, w: World, rest: seq<string>)
    ensures var once := Run(inst, w, ["init"] + rest);
            var twice := Run(inst, w.(fs := once.fs), ["init"] + rest);
            && twice.fs == once.fs
            && (InitScript.EnvFile(w.home) in once.fs.files
                ==> twice.stdout[2] == ConfigExists(Render(InitScript.ConfigDir(w.home))))
  {
    DispatchTable(rest);
    InitScript.BootstrapIdempotent(w.fs, w.home, InitScript.EnvTemplate);
  }

  /** On a valid file system, `init` keeps it valid and leaves the three
      managed directories and `.env` in place exactly when nothing obstructs
      them; a `.env` it creates holds the template. */
  lemma InitLeavesLayoutReady(inst: Install, w: World, rest: seq<string>)
    requires Valid(w.fs)
    ensures var o := Run(inst, w, ["init"] + rest);
            && Valid(o.fs)
            && (InitScript.Ready(o.fs, w.home) <==> InitScript.Unobstructed(w.fs, w.home))
            && (InitScript.EnvFile(w.home) !in w.fs.files && InitScript.EnvFile(w.home) in o.fs.files
                ==> o.fs.files[InitScript.EnvFile(w.home)] == InitScript.EnvTemplate)
  {
    DispatchTable(rest);
    InitScript.BootstrapPreservesValid(w.fs, w.home, InitScript.EnvTemplate);
    InitScript.BootstrapReadyIffUnobstructed(w.fs, w.home, InitScript.EnvTemplate);
  }

  /** On a valid file system `init` creates every managed directory that no
      regular file blocks, whatever blocks the others, and leaves `.env` a
      regular file exactly when it was one or the configuration root could
      be created and no directory sits where `.env` belongs. */
  lemma InitCreatesWhatIsUnblocked(inst: Install, w: World, rest: seq<string>)
    requires Valid(w.fs)
    ensures var o := Run(inst, w, ["init"] + rest);
            && (InitScript.ConfigDir(w.home) in o.fs.dirs <==> !Obstructed(w.fs, InitScript.ConfigDir(w.home)))
            && (InitScript.RagStore(w.home) in o.fs.dirs <==> !Obstructed(w.fs, InitScript.RagStore(w.home)))
            && (InitScript.Recordings(w.home) in o.fs.dirs <==> !Obstructed(w.fs, InitScript.Recordings(w.home)))
            && (InitScript.EnvFile(w.home) in o.fs.files
                <==> InitScript.EnvFile(w.home) in w.fs.files
                     || (!Obstructed(w.fs, InitScript.ConfigDir(w.home)) && InitScript.EnvFile(w.home) !in w.fs.dirs))
  {
    DispatchTable(rest);
    InitScript.MakeLayoutCreatesUnblocked(w.fs, w.home);
    InitScript.BootstrapWritesEnvUnlessBlocked(w.fs, w.home, InitScript.EnvTemplate);
  }
}
