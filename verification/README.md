# iOS Test Automator command line, modelled in Dafny

The Homebrew formula of iOS Test Automator generates two bash scripts when it
installs the product:

- `ios-test-automator`, a dispatcher. A `case` on the first argument selects one of these:
  - start the FastAPI backend, the Streamlit UI or the RAG tool, each from
    its own component directory with fixed leading arguments followed by the
    forwarded ones;
  - run the init script;
  - probe the two local services;
  - open the configuration file in `$EDITOR`;
  - print the version or the usage text;
  - reject an unknown subcommand with exit status 1.
- `ios-test-automator-init`, which creates `~/.ios-test-automator` and its
  `rag_store` and `recordings` directories with `mkdir -p`. It writes a
  default `.env` only when no regular file is there yet, then prints a
  report of the layout and the next steps.

The model works on pure values. An invocation maps an argument vector and a
`World` to an `Outcome`. The `World` holds:
- an abstract file system: a set of directories and a map from path to file lines;
- the home directory;
- the results of the two probes;
- `EDITOR`;
- the exit status of whatever external program gets started.

The `Outcome` holds the lines printed, the process started, the resulting
file system and the exit status. The modules follow the scripts:

- `Dispatcher` is the `case` statement, together with an independent table
  of the command-line surface.
- `Launcher` holds the launch recipes and the `${EDITOR:-nano}` command.
- `Words` is bash field splitting of the unquoted editor setting.
- `HealthProbe` is the `status` subcommand.
- `InitScript` is the init script. It uses `Paths` and `Files`, which model
  `mkdir -p` and `cat >` and their failure cases.
- `Output` gives each printed line as a constructor, with its exact text.
- `Cli` connects all of these into one invocation.

Some behaviour follows the code where a plain reading would suggest
otherwise:
- The init script does not stop on errors and ends with an `echo`, so it
  always exits 0.
- The script decides between "Created config file" and "Config file already
  exists" with the `-f` test, not from the outcome of the write. So it
  reports "Created" even when `cat >` failed.
- When a regular file stands where one of the managed directories belongs,
  `mkdir -p` fails and the layout stays incomplete. For that reason, init
  leaves the layout in place exactly when nothing obstructs it, rather than
  whatever the prior state.
- A `cd` into a missing component directory fails with status 1, and
  nothing is started.

## Model

| member | source | states |
|---|---|---|
| Dispatcher.RestArgs | Formula/ios-test-automator.rb:37-43 | `"${@:2}"` is every argument after the first, in order; the argument vector is the first argument followed by it |
| Dispatcher.Select | Formula/ios-test-automator.rb:35-99 | the `case` on a token: a launch forwards exactly the remaining arguments, and a rejection names the token it rejected |
| Dispatcher.Dispatch | Formula/ios-test-automator.rb:35-99 | the action for a whole argument vector: a launch forwards the arguments after the first, and a rejection names the first argument |
| Dispatcher.DispatchTable | Formula/ios-test-automator.rb:35-66 | `server`, `ui`, `rag`, `init`, `status`, `config` and `version` each select their action, whatever follows them |
| Dispatcher.DispatchFollowsSurface | Formula/ios-test-automator.rb:35-99 | a first argument is rejected if and only if it is outside the 17-token surface table; every other token selects exactly the subcommand the table names |
| Dispatcher.AliasesAgree | Formula/ios-test-automator.rb:36-65 | `backend`/`server`, `streamlit`/`ui`, `health`/`status`, `configure`/`config` and `--version`/`-v`/`version` select the same action |
| Dispatcher.HelpForms | Formula/ios-test-automator.rb:68 | `help`, `--help`, `-h`, an empty first argument and no argument at all all select help |
| Dispatcher.OnlyLaunchesReadArguments | Formula/ios-test-automator.rb:45-93 | for every recognised subcommand other than the three launches, the arguments after the first do not affect the action |
| Launcher.RecipeFor | Formula/ios-test-automator.rb:36-43 | each service runs inside its own component directory under libexec, with a program from libexec/bin and the prefix `main.py`, `run app.py` or `ios_rag_mvp.py` |
| Launcher.RecipesUseDistinctDirectories | Formula/ios-test-automator.rb:37-43 | two services share a working directory if and only if they are the same service |
| Launcher.EditorSetting | Formula/ios-test-automator.rb:63 | `${EDITOR:-nano}` is `nano` exactly when EDITOR is unset, empty or itself `nano`; a set, non-empty EDITOR is used as it is |
| Launcher.EditorProcess | Formula/ios-test-automator.rb:63 | the editor command runs with no working-directory change, and its last argument is the configuration file; a setting with no non-blank character runs the file itself with no arguments; otherwise the program is a blank-free word, and the program followed by the arguments before the file spells exactly the setting's non-blank characters, in order |
| Launcher.DefaultEditorIsNano | Formula/ios-test-automator.rb:63 | with EDITOR unset or empty, the configuration file opens as `nano <file>` |
| Launcher.EditorWords | Formula/ios-test-automator.rb:63 | for an EDITOR made of words separated by blank runs, with blanks of any length before and after: the first word runs, with the other words before the file; an EDITOR of blanks only runs the file itself, and an empty one runs `nano` |
| Words.SplitFrom | Formula/ios-test-automator.rb:63 | field splitting yields only non-empty fields free of IFS characters, which together hold exactly the non-blank characters, in order |
| Words.Split | Formula/ios-test-automator.rb:63 | the fields of the unquoted expansion are well formed and hold exactly its non-blank characters |
| Words.SplitThroughField | Formula/ios-test-automator.rb:63 | characters other than IFS characters only extend the field being read |
| Words.SplitJoinFields | Formula/ios-test-automator.rb:63 | splitting well-formed fields joined by spaces gives back exactly those fields |
| Words.SplitLayout | Formula/ios-test-automator.rb:63 | any string made of fields separated by non-empty blank runs, with blank runs of any length (possibly none) at both ends, splits into exactly those fields; a string of blanks only has no field |
| Paths.Ancestors | Formula/ios-test-automator.rb:110-112 | the directories `mkdir -p` needs are exactly the prefixes of the path |
| Files.MakeDirs | Formula/ios-test-automator.rb:110-112 | `mkdir -p` succeeds if and only if no regular file is on the path, in which case it adds exactly the missing ancestors; it never touches files and changes nothing on failure |
| Files.WriteFile | Formula/ios-test-automator.rb:115-137 | `cat >` succeeds if and only if the parent is a directory and the target is not one; on success only the target changes, and it holds the content; on failure nothing changes |
| Files.AncestorsOfDirAreDirs | Formula/ios-test-automator.rb:110-112 | in a valid file system every ancestor of a directory is a directory |
| Files.MakeDirsOnDirectory | Formula/ios-test-automator.rb:110-112 | `mkdir -p` on an existing directory succeeds and changes nothing |
| Files.MakeDirsIdempotent | Formula/ios-test-automator.rb:110-112 | `mkdir -p` twice has the same effect as once |
| Files.MakeDirsPreservesValid | Formula/ios-test-automator.rb:110-112 | `mkdir -p` keeps the file system well formed |
| Files.WriteFilePreservesValid | Formula/ios-test-automator.rb:115 | writing a file keeps the file system well formed |
| Output.Usage | Formula/ios-test-automator.rb:68-93 | the usage text has 24 lines; the first is the version line, and no later line is |
| Output.VersionLineText | Formula/ios-test-automator.rb:65-66 | the version line starts with "iOS Test Automator", as the formula's test requires, and ends with the version |
| Output.UnknownCommandNamesToken | Formula/ios-test-automator.rb:95 | the unknown-command line starts with "Unknown command: " and determines the token, so different tokens give different lines |
| HealthProbe.Probe | Formula/ios-test-automator.rb:48-61 | status prints a heading, a blank line, then one backend line and one UI line; a ✅ line appears if and only if its probe succeeded, and a ❌ line if and only if it failed; the exit status is 0 |
| HealthProbe.ProbeReadsBack | Formula/ios-test-automator.rb:48-61 | for all four combinations of probe results, both results can be read back exactly from the printed report |
| InitScript.MakeLayout | Formula/ios-test-automator.rb:109-112 | the three `mkdir -p` commands touch no file and add no directory except ancestors of `rag_store` and `recordings`, which include the configuration root |
| InitScript.Bootstrap | Formula/ios-test-automator.rb:109-141 | init never changes or removes an existing regular file; the only file it creates is `.env`, which holds the template; it adds no directory except ancestors of `rag_store` and `recordings` |
| InitScript.Report | Formula/ios-test-automator.rb:106-154 | the report has 15 lines; its third line says whether `.env` already existed or was created, naming the configuration directory |
| InitScript.Init | Formula/ios-test-automator.rb:103-155 | init exits 0 and never overwrites a file; the only file it creates is `.env`, which holds the fixed template; it adds no directory except ancestors of `rag_store` and `recordings`; its output reports whether `.env` was already a regular file |
| InitScript.MakeLayoutPreservesValid | Formula/ios-test-automator.rb:109-112 | the three `mkdir -p` commands keep the file system well formed |
| InitScript.BootstrapPreservesValid | Formula/ios-test-automator.rb:109-141 | init keeps the file system well formed |
| InitScript.BootstrapReadyWhenUnobstructed | Formula/ios-test-automator.rb:109-141 | whatever the prior state, when no regular file blocks a data directory and no directory sits where `.env` belongs, init leaves the three directories and `.env` in place |
| InitScript.BootstrapReadyIffUnobstructed | Formula/ios-test-automator.rb:109-141 | on a valid file system, init leaves the three directories and `.env` in place if and only if no regular file blocks a directory and no directory sits where `.env` belongs |
| InitScript.MakeLayoutCreatesUnblocked | Formula/ios-test-automator.rb:110-112 | on a valid file system each of the configuration root, `rag_store` and `recordings` is a directory after `mkdir -p` if and only if no regular file lies on its own path, whatever happens to the others |
| InitScript.BootstrapWritesEnvUnlessBlocked | Formula/ios-test-automator.rb:109-137 | the init script's directories are exactly those `mkdir -p` leaves, and `.env` is a regular file afterwards if and only if it was one, or the configuration root could be created and no directory sits where `.env` belongs |
| InitScript.MakeLayoutIdempotent | Formula/ios-test-automator.rb:110-112 | creating the layout a second time changes nothing |
| InitScript.MakeLayoutIgnoresEnvFile | Formula/ios-test-automator.rb:110-115 | whether `.env` exists has no effect on what the `mkdir -p` commands do |
| InitScript.BootstrapIdempotent | Formula/ios-test-automator.rb:109-141 | running init twice leaves the same file system as running it once |
| Output.Text | Formula/ios-test-automator.rb:49-153 | the `echo ""` separator prints nothing else; the version line prints the version verbatim after its 20-character prefix, and the unknown-command line prints the token verbatim after its 17-character prefix |
| Cli.Start | Formula/ios-test-automator.rb:37-43 | `cd dir && program ...` prints nothing and changes no file; it starts the program if and only if the directory exists, in that directory, with the prefix followed by the given arguments, and passes its status through; otherwise it exits 1 |
| Cli.Execute | Formula/ios-test-automator.rb:35-99 | what each action does, as the list after this table says |
| Cli.Run | Formula/ios-test-automator.rb:35-99 | a launched program receives its prefix followed by exactly the arguments after the first; an off-surface first argument gives the exact rejection outcome; only `init` changes the file system |
| Cli.RejectsOffSurface | Formula/ios-test-automator.rb:94-98 | a first argument outside the surface, and only such an argument, prints `Unknown command: <token>` and the help hint, starts nothing, changes nothing and exits 1 |
| Cli.ForwardsArguments | Formula/ios-test-automator.rb:37-43 | a launch whose directory exists passes the program its prefix followed by exactly `argv[1..]`, and exits with the program's status |
| Cli.LaunchSubcommands | Formula/ios-test-automator.rb:36-43 | each of `server`, `ui` and `rag` needs only its own component directory: when it exists they start `python main.py`, `streamlit run app.py` and `python ios_rag_mvp.py` in `python-backend`, `streamlit-ui` and `python-rag`, with the remaining arguments appended; they print nothing and pass the child's exit status through |
| Cli.RagForwards | Formula/ios-test-automator.rb:42-43 | when its own directory exists, `rag` starts `python ios_rag_mvp.py` in `python-rag` with exactly the arguments that followed it |
| Cli.RagIngestForwarded | Formula/ios-test-automator.rb:42-43 | `rag ingest --app-dir /x` runs the RAG script with exactly `ingest --app-dir /x` |
| Cli.FailsOnlyOnUnknown | Formula/ios-test-automator.rb:35-99 | when the install is complete and the child succeeds, the exit status is non-zero if and only if the first argument is outside the surface |
| Cli.HelpOutputsAgree | Formula/ios-test-automator.rb:68-93 | no argument, an empty first argument, `help`, `--help` and `-h` give identical outcomes: the usage text, nothing started, nothing changed, exit 0 |
| Cli.VersionOutput | Formula/ios-test-automator.rb:65-66 | `version`, `--version` and `-v` print only the version line, which starts with "iOS Test Automator"; they exit 0 |
| Cli.StatusNeverFails | Formula/ios-test-automator.rb:48-61 | `status` and `health` agree, exit 0, start nothing and change nothing, and both probe results read back from their output |
| Cli.ConfigRunsEditor | Formula/ios-test-automator.rb:62-63 | for every EDITOR, `config` and `configure` start exactly the `${EDITOR:-nano}` process for `$HOME/.ios-test-automator/.env`, print nothing, change nothing, ignore later arguments and exit with the editor's status |
| Cli.ConfigOpensEnvFile | Formula/ios-test-automator.rb:62-63 | with EDITOR unset or empty, `config` opens `$HOME/.ios-test-automator/.env` in `nano`, ignores later arguments and exits with the editor's status |
| Cli.InitTwiceIsInitOnce | Formula/ios-test-automator.rb:109-141 | a second `init` leaves the file system as the first left it, and reports "already exists" when the first run left a `.env` |
| Cli.InitLeavesLayoutReady | Formula/ios-test-automator.rb:109-141 | `init` keeps the file system valid and leaves the layout ready if and only if nothing obstructs it; a new `.env` holds the template |
| Cli.InitCreatesWhatIsUnblocked | Formula/ios-test-automator.rb:109-141 | `init` creates each managed directory that no regular file blocks, however the others fare, and leaves `.env` a regular file exactly when it was one or its directory could be created and no directory occupies its path |

`Cli.Execute` states these facts about the launcher's own commands. The
programs it starts are opaque, so what they do to files is not part of the
outcome:
- the rejection's exact outcome;
- a launch whose directory exists prints nothing, changes nothing, starts
  the service's program in its directory with the prefix followed by the
  forwarded arguments, and passes the child's status through;
- a launch whose directory is missing prints nothing, starts nothing, changes
  nothing and exits 1;
- only the init script changes the file system;
- the init script never changes an existing file, creates no file but
  `.env` (which holds the template when it is new), adds no directory off
  the way to `rag_store` and `recordings`, prints the report chosen by
  whether `.env` was already a regular file, and exits 0;
- `config` prints nothing, changes nothing, starts exactly the editor
  process for `$HOME/.ios-test-automator/.env` that `${EDITOR:-nano}`
  gives, and passes its status through;
- of the programs modelled as processes (the three services and the editor),
  only a launch or `config` starts one;
- the only causes of a non-zero exit are the rejection, a failed `cd` and
  the status of the started program.

## Left out

- The Homebrew `install` mechanics (virtualenv creation, `pip install`, `libexec.install`, `chmod`): packaging plumbing done by foreign tools, with no logic of the scripts.
- The three `export` lines of the dispatcher: they shape the environment of the launched programs, whose internals are not modelled, and set the PATH through which the script finds `nano`, the `EDITOR` program and `curl`. Program names such as `nano` are kept unresolved.
- The launched programs (`main.py`, `streamlit`, `ios_rag_mvp.py`) and the editor: only the process they are started as and their exit status, which is an input, are modelled.
- What a started program does to files: `Outcome.fs` is the file system after the launcher's own commands. The editor opened by `config` and the RAG tool's writes to its store are not in it.
- The init script run by `init` and the `curl` probes of `status` are not modelled as started processes. The init script's effect is modelled directly, and the two probe results are boolean inputs.
- Pathname expansion (globbing) of the unquoted `${EDITOR:-nano}`: it depends on the contents of the current directory. Field splitting is modelled with the default IFS only.
- Error messages that `mkdir`, `cat` and `cd` print to standard error: only standard output is modelled.
- Permissions, symbolic links and other file kinds: the file system has only directories and regular files.
- The ancestors of `$HOME`: the home directory is a parameter and is not assumed to exist.
- The concrete values of `version` and `libexec`: they are parameters, because Homebrew interpolates them when it installs the product. The `bin` directory only locates the init script that `init` runs, and that script is modelled directly, so `bin` is not a parameter.
- The exact emoji and spacing of informational lines, where no property depends on them: every line is a constructor of `Output.Line`, and `Output.Text` gives its characters.
- The `caveats` text and the formula's Python import test: informational text and an external runtime check.
- InitScript.BootstrapReadyIffUnobstructed: does not promise the layout "whatever the prior state". A regular file on a directory's path makes `mkdir -p` fail, so the layout is promised exactly when nothing obstructs it.
- Words.SplitFrom: its contract fixes the fields' contents but not where they break; Words.SplitLayout pins the fields of every string laid out as fields and blank runs.
- Words.Split: as for Words.SplitFrom, the field boundaries are fixed by Words.SplitLayout, not by its own contract.
- Output.Text: its contract covers the separator and the two lines that carry user-supplied text. The characters of the fixed lines are given by its definition, because a contract about every literal's characters is too costly to verify.
- Cli.InitLeavesLayoutReady: carries the same obstruction condition as InitScript.BootstrapReadyIffUnobstructed, for the same reason. Cli.InitCreatesWhatIsUnblocked states what a partly obstructed layout still gets.
