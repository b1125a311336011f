/** How the launcher starts external programs: the fixed recipe of each
    service, and the editor command of the `config` subcommand. */
module Launcher {
  import opened Wrappers
  import opened Paths
  import opened Processes
  import opened Words
  import opened Dispatcher

  /** Where the formula installed the product and which version it is: the
      values Homebrew interpolates for `libexec` and `version`. */
  datatype Install = Install(libexec: Path, version: string)

  /** A launch recipe: the directory to `cd` into, the program to run there,
      and the fixed arguments that come before the forwarded ones. */
  datatype Recipe = Recipe(dir: Path, program: Path, prefix: seq<string>)

  /** The component directory of each service under `libexec`. */
  function ComponentDir(s: Service): string
  {
    match s
    case Backend => "python-backend"
    case WebUi => "streamlit-ui"
    case RagTool => "python-rag"
  }

  /** The recipe of each service: the backend and the RAG tool are Python
      scripts run by the bundled interpreter, the UI is `streamlit run`; each
      starts inside its own component directory under `libexec`, and every
      program lives in `libexec/bin`. */
  function RecipeFor(inst: Install, s: Service): (r: Recipe)
    ensures r.dir == inst.libexec + [ComponentDir(s)]
    ensures |r.program| == |inst.libexec| + 2 && r.program[..|inst.libexec| + 1] == inst.libexec + ["bin"]
    ensures s == Backend ==> r.prefix == ["main.py"]
    ensures s == WebUi ==> r.prefix == ["run", "app.py"]
    ensures s == RagTool ==> r.prefix == ["ios_rag_mvp.py"]
  {
    match s
    case Backend => Recipe(inst.libexec + ["python-backend"], inst.libexec + ["bin", "python"], ["main.py"])
    case WebUi => Recipe(inst.libexec + ["streamlit-ui"], inst.libexec + ["bin", "streamlit"], ["run", "app.py"])
    case RagTool => Recipe(inst.libexec + ["python-rag"], inst.libexec + ["bin", "python"], ["ios_rag_mvp.py"])
  }

  /** The three services work in three different directories. */
  lemma RecipesUseDistinctDirectories(inst: Install, s: Service, t: Service)
    ensures RecipeFor(inst, s).dir == RecipeFor(inst, t).dir <==> s == t
  {
    if RecipeFor(inst, s).dir == RecipeFor(inst, t).dir {
      var n := |inst.libexec|;
      assert RecipeFor(inst, s).dir[n] == ComponentDir(s);
      assert RecipeFor(inst, t).dir[n] == ComponentDir(t);
    }
  }

  /** `${EDITOR:-nano}`: the value of `EDITOR`, or `nano` when it is unset or
      empty. */
  function EditorSetting(editor: Option<string>): (e: string)
    ensures e == "nano" <==> editor == None || editor == Some("") || editor == Some("nano")
    ensures editor.Some? && editor.value != "" ==> e == editor.value
  {
    if editor.None? || editor.value == "" then "nano" else editor.value
  }

  /** The process `${EDITOR:-nano} "$file"` starts. The unquoted expansion is
      split into fields: the first names the program, the others come before
      the quoted file argument. When the setting splits into no field at all
      (it is only blanks), the file itself is what the shell runs. */
  function EditorProcess(editor: Option<string>, file: string): (p: Process)
    ensures p.dir == None
    ensures |p.args| > 0 ==> p.args[|p.args| - 1] == file
    ensures NonBlank(EditorSetting(editor)) == [] ==> p == Process(None, file, [])
    ensures NonBlank(EditorSetting(editor)) != [] ==>
              && |p.args| > 0
              && IsField(p.program)
              && Concat([p.program] + p.args[..|p.args| - 1]) == NonBlank(EditorSetting(editor))
  {
    var fields := Split(EditorSetting(editor));
    if fields == [] then Process(None, file, [])
    else
      assert fields == [fields[0]] + fields[1..];
      assert (fields[1..] + [file])[..|fields| - 1] == fields[1..];
      Process(None, fields[0], fields[1..] + [file])
  }

  /** With `EDITOR` unset or empty the configuration file opens in `nano`. */
  lemma DefaultEditorIsNano(editor: Option<string>, file: string)
    requires editor == None || editor == Some("")
    ensures EditorProcess(editor, file) == Process(None, "nano", [file])
  {
    assert Split("nano") == ["nano"] by {
      SplitJoinFields(["nano"]);
    }
  }

  /** A setting laid out as fields separated by blank runs (with blanks of
      any length before and after) runs its first field as the program with
      the other fields, in order, before the file; a non-empty setting of
      blanks only runs the file itself; an empty one runs `nano`. */
  lemma EditorWords(seps: seq<string>, ws: seq<string>, trail: string, file: string)
    requires |seps| == |ws|
    requires forall i :: 0 <= i < |ws| ==> IsField(ws[i]) && IsBlanks(seps[i])
    requires forall i :: 1 <= i < |seps| ==> |seps[i]| > 0
    requires IsBlanks(trail)
    ensures var setting := Interleave(seps, ws) + trail;
            EditorProcess(Some(setting), file)
            == if setting == "" then Process(None, "nano", [file])
               else if ws == [] then Process(None, file, [])
               else Process(None, ws[0], ws[1..] + [file])
  {
    var setting := Interleave(seps, ws) + trail;
    if setting == "" {
      DefaultEditorIsNano(Some(setting), file);
    } else {
      SplitLayout(seps, ws, trail);
    }
  }
}
