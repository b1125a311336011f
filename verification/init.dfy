/** The generated `ios-test-automator-init` script: create the configuration
    root and its two data directories with `mkdir -p`, write the `.env` file
    from a fixed template only when no regular file is there yet, and print a
    report. Each command runs whether or not the previous one failed (the
    script does not stop on errors), and its last command is an `echo`. */
module InitScript {
  import opened Paths
  import opened Files
  import opened Processes
  import opened Output

  function ConfigDir(home: Path): Path { home + [".ios-test-automator"] }
  function RagStore(home: Path): Path { ConfigDir(home) + ["rag_store"] }
  function Recordings(home: Path): Path { ConfigDir(home) + ["recordings"] }
  function EnvFile(home: Path): Path { ConfigDir(home) + [".env"] }

  /** The default `.env`, line by line: commented defaults, written
      verbatim (the here-document is quoted, so `$HOME` stays literal). */
  const EnvTemplate: Contents := [
    "# iOS Test Automator Configuration",
    "",
    "# Anthropic API Key (required)",
    "# Get your key from: https://console.anthropic.com/",
    "ANTHROPIC_API_KEY=",
    "",
    "# Backend Configuration",
    "BACKEND_PORT=8000",
    "BACKEND_HOST=0.0.0.0",
    "",
    "# RAG Configuration",
    "RAG_PERSIST_DIR=$HOME/.ios-test-automator/rag_store",
    "RAG_COLLECTION=ios_app",
    "RAG_TOP_K=10",
    "",
    "# Streamlit Configuration",
    "STREAMLIT_PORT=8501",
    "",
    "# Simulator Configuration (auto-detected if empty)",
    "SIMULATOR_ID=",
    "SIMULATOR_NAME=iPhone 17"
  ]

  /** The layout report and next steps printed after the `.env` line. */
  function Summary(home: Path): seq<Line>
  {
    var c := Render(ConfigDir(home));
    [ Blank,
      DirectoryHeader,
      ConfigPath(c),
      RagStorePath(c),
      RecordingsPath(c),
      Blank,
      NextStepsHeader,
      NextStep(1),
      NextStep(2),
      NextStep(3),
      NextStep(4),
      Blank ]
  }

  /** File system, standard output and exit status after a run. */
  datatype InitRun = InitRun(fs: FileSystem, stdout: seq<Line>, exit: ExitStatus)

  /** Every directory a run may create: the ancestors of the two data
      directories, which include the configuration root. */
  function LayoutDirs(home: Path): (a: set<Path>)
    ensures forall q :: q in a <==> q <= RagStore(home) || q <= Recordings(home)
  {
    Ancestors(RagStore(home)) + Ancestors(Recordings(home))
  }

  /** The three `mkdir -p` commands, in the script's order. They touch no
      file and only add directories on the way to the two data
      directories. */
  function MakeLayout(fs: FileSystem, home: Path): (r: FileSystem)
    ensures r.files == fs.files
    ensures fs.dirs <= r.dirs <= fs.dirs + LayoutDirs(home)
  {
    var s1 := MakeDirs(fs, ConfigDir(home));
    var s2 := MakeDirs(s1.fs, RagStore(home));
    MakeDirs(s2.fs, Recordings(home)).fs
  }

  /** The file-system effect of one run when a new `.env` receives
      `template`: it never changes or removes an existing regular file,
      creates no file but `.env`, which gets `template`, and only adds
      directories on the way to the two data directories. */
  function Bootstrap(fs: FileSystem, home: Path, template: Contents): (r: FileSystem)
    ensures forall p :: p in fs.files ==> p in r.files && r.files[p] == fs.files[p]
    ensures forall p :: p in r.files && p !in fs.files ==> p == EnvFile(home)
    ensures EnvFile(home) in r.files && EnvFile(home) !in fs.files
            ==> r.files[EnvFile(home)] == template
    ensures fs.dirs <= r.dirs <= fs.dirs + LayoutDirs(home)
  {
    var laid := MakeLayout(fs, home);
    if EnvFile(home) in laid.files then laid
    else WriteFile(laid, EnvFile(home), template).fs
  }

  /** What a run prints, given whether `.env` was already a regular file:
      a banner, then the line that tells which of the two cases held, then
      the layout summary. */
  function Report(home: Path, present: bool): (lines: seq<Line>)
    ensures |lines| == 15
    ensures lines[2] == (if present then ConfigExists(Render(ConfigDir(home)))
                         else ConfigCreated(Render(ConfigDir(home))))
  {
    var c := Render(ConfigDir(home));
    [InitBanner, Blank, if present then ConfigExists(c) else ConfigCreated(c)] + Summary(home)
  }

  /** One run of the init script for the user whose home directory is `home`.
      It always exits 0 and never changes an existing regular file; a `.env`
      it creates holds the template; it creates no file but `.env` and no
      directory off the way to the two data directories; its report says
      whether `.env` was already a regular file. */
  function Init(fs: FileSystem, home: Path): (r: InitRun)
    ensures r.exit == 0
    ensures forall p :: p in fs.files ==> p in r.fs.files && r.fs.files[p] == fs.files[p]
    ensures EnvFile(home) in r.fs.files && EnvFile(home) !in fs.files
            ==> r.fs.files[EnvFile(home)] == EnvTemplate
    ensures forall p :: p in r.fs.files && p !in fs.files ==> p == EnvFile(home)
    ensures fs.dirs <= r.fs.dirs <= fs.dirs + LayoutDirs(home)
    ensures r.stdout == Report(home, EnvFile(home) in fs.files)
  {
    InitRun(Bootstrap(fs, home, EnvTemplate), Report(home, EnvFile(home) in fs.files), 0)
  }

  /** The layout is usable: the three managed directories exist and `.env`
      is a regular file. */
  predicate Ready(fs: FileSystem, home: Path) {
    && ConfigDir(home) in fs.dirs
    && RagStore(home) in fs.dirs
    && Recordings(home) in fs.dirs
    && EnvFile(home) in fs.files
  }

  /** Nothing stands in the way of init: no regular file at or above the two
      data directories, and no directory where `.env` belongs. */
  predicate Unobstructed(fs: FileSystem, home: Path) {
    && !Obstructed(fs, RagStore(home))
    && !Obstructed(fs, Recordings(home))
    && EnvFile(home) !in fs.dirs
  }

  lemma MakeLayoutPreservesValid(fs: FileSystem, home: Path)
    requires Valid(fs)
    ensures Valid(MakeLayout(fs, home))
  {
    var s1 := MakeDirs(fs, ConfigDir(home));
    MakeDirsPreservesValid(fs, ConfigDir(home));
    var s2 := MakeDirs(s1.fs, RagStore(home));
    MakeDirsPreservesValid(s1.fs, RagStore(home));
    MakeDirsPreservesValid(s2.fs, Recordings(home));
  }

  /** Init keeps a file system valid. */
  lemma BootstrapPreservesValid(fs: FileSystem, home: Path, template: Contents)
    requires Valid(fs)
    ensures Valid(Bootstrap(fs, home, template))
  {
    MakeLayoutPreservesValid(fs, home);
    WriteFilePreservesValid(MakeLayout(fs, home), EnvFile(home), template);
  }

  /** Whatever the prior state, a run that finds the way clear creates all
      three directories and `.env`. */
  lemma BootstrapReadyWhenUnobstructed(fs: FileSystem, home: Path, template: Contents)
    requires Unobstructed(fs, home)
    ensures Ready(Bootstrap(fs, home, template), home)
  {
    var c, g, d, e := ConfigDir(home), RagStore(home), Recordings(home), EnvFile(home);
    var laid := MakeLayout(fs, home);
    assert !Obstructed(fs, c) by {
      forall i | 0 <= i <= |c| ensures c[..i] !in fs.files {
        assert c[..i] == g[..i];
      }
    }
    var s1 := MakeDirs(fs, c);
    var s2 := MakeDirs(s1.fs, g);
    assert laid == MakeDirs(s2.fs, d).fs;
    assert s1.ok && s2.ok && MakeDirs(s2.fs, d).ok;
    assert laid.dirs == fs.dirs + Ancestors(c) + Ancestors(g) + Ancestors(d);
    assert Parent(e) == c;
    assert e !in laid.dirs by {
      assert !(e <= c) && !(e <= g) && !(e <= d) by {
        assert e[|e| - 1] != g[|e| - 1];
        assert e[|e| - 1] != d[|e| - 1];
      }
    }
  }

  /** On a valid file system, init leaves the layout ready exactly when
      nothing obstructs it: a regular file at or above a data directory
      makes `mkdir -p` fail, and a directory where `.env` belongs makes the
      write fail. */
  lemma BootstrapReadyIffUnobstructed(fs: FileSystem, home: Path, template: Contents)
    requires Valid(fs)
    ensures Ready(Bootstrap(fs, home, template), home) <==> Unobstructed(fs, home)
  {
    var g, d := RagStore(home), Recordings(home);
    var r := Bootstrap(fs, home, template);
    if Unobstructed(fs, home) {
      BootstrapReadyWhenUnobstructed(fs, home, template);
    } else {
      BootstrapPreservesValid(fs, home, template);
      if Obstructed(fs, g) {
        var i :| 0 <= i <= |g| && g[..i] in fs.files;
        if g in r.dirs {
          AncestorsOfDirAreDirs(r, g, g[..i]);
        }
      } else if Obstructed(fs, d) {
        var i :| 0 <= i <= |d| && d[..i] in fs.files;
        if d in r.dirs {
          AncestorsOfDirAreDirs(r, d, d[..i]);
        }
      }
    }
  }

  /** `mkdir -p` depends only on the regular files, which the earlier
      commands of the script leave alone. */
  lemma ObstructedByFilesOnly(fs: FileSystem, fs': FileSystem, p: Path)
    requires fs'.files == fs.files
    ensures Obstructed(fs', p) == Obstructed(fs, p)
  {
  }

  /** Each `mkdir -p` of the script runs whether or not an earlier one
      failed: on a valid file system each managed directory ends up present
      exactly when no regular file stands at or above it, whatever happens
      to the other two. */
  lemma MakeLayoutCreatesUnblocked(fs: FileSystem, home: Path)
    requires Valid(fs)
    ensures ConfigDir(home) in MakeLayout(fs, home).dirs <==> !Obstructed(fs, ConfigDir(home))
    ensures RagStore(home) in MakeLayout(fs, home).dirs <==> !Obstructed(fs, RagStore(home))
    ensures Recordings(home) in MakeLayout(fs, home).dirs <==> !Obstructed(fs, Recordings(home))
  {
    var c, g, d := ConfigDir(home), RagStore(home), Recordings(home);
    var s1 := MakeDirs(fs, c);
    var s2 := MakeDirs(s1.fs, g);
    var laid := MakeLayout(fs, home);
    assert laid == MakeDirs(s2.fs, d).fs;
    ObstructedByFilesOnly(fs, s1.fs, g);
    ObstructedByFilesOnly(fs, s2.fs, d);
    MakeLayoutPreservesValid(fs, home);
    forall p | p == c || p == g || p == d
      ensures p in laid.dirs ==> !Obstructed(fs, p)
    {
      if p in laid.dirs && Obstructed(fs, p) {
        var i :| 0 <= i <= |p| && p[..i] in fs.files;
        AncestorsOfDirAreDirs(laid, p, p[..i]);
      }
    }
  }

  /** The write of `.env` runs whatever the `mkdir -p` commands did: after
      a run on a valid file system `.env` is a regular file exactly when it
      already was one, or when the configuration root could be created and
      no directory sits where `.env` belongs. */
  lemma BootstrapWritesEnvUnlessBlocked(fs: FileSystem, home: Path, template: Contents)
    requires Valid(fs)
    ensures Bootstrap(fs, home, template).dirs == MakeLayout(fs, home).dirs
    ensures EnvFile(home) in Bootstrap(fs, home, template).files
            <==> EnvFile(home) in fs.files || (!Obstructed(fs, ConfigDir(home)) && EnvFile(home) !in fs.dirs)
  {
    var c, g, d, e := ConfigDir(home), RagStore(home), Recordings(home), EnvFile(home);
    var laid := MakeLayout(fs, home);
    MakeLayoutCreatesUnblocked(fs, home);
    assert Parent(e) == c;
    assert e in laid.dirs <==> e in fs.dirs by {
      assert !(e <= g) && !(e <= d) by {
        assert e[|e| - 1] != g[|e| - 1];
        assert e[|e| - 1] != d[|e| - 1];
      }
    }
  }

  /** Creating the layout a second time changes nothing. */
  lemma MakeLayoutIdempotent(fs: FileSystem, home: Path)
    ensures MakeLayout(MakeLayout(fs, home), home) == MakeLayout(fs, home)
  {
  }

  /** `.env` is no ancestor of the three directories, so whether it is a
      regular file does not change what the `mkdir -p` commands do. */
  lemma MakeLayoutIgnoresEnvFile(fs: FileSystem, home: Path, template: Contents)
    ensures MakeLayout(fs.(files := fs.files[EnvFile(home) := template]), home)
            == MakeLayout(fs, home).(files := fs.files[EnvFile(home) := template])
  {
    var c, g, d, e := ConfigDir(home), RagStore(home), Recordings(home), EnvFile(home);
    var fs' := fs.(files := fs.files[e := template]);
    forall p | p == c || p == g || p == d
      ensures Obstructed(fs', p) <==> Obstructed(fs, p)
    {
      forall i | 0 <= i <= |p|
        ensures p[..i] in fs'.files <==> p[..i] in fs.files
      {
        if |p[..i]| == |e| {
          assert p[..i][|e| - 1] != e[|e| - 1];
        }
      }
    }
    var s1, t1 := MakeDirs(fs, c), MakeDirs(fs', c);
    assert t1.fs == s1.fs.(files := fs'.files);
    var s2, t2 := MakeDirs(s1.fs, g), MakeDirs(t1.fs, g);
    assert Obstructed(t1.fs, g) == Obstructed(fs', g);
    assert Obstructed(s1.fs, g) == Obstructed(fs, g);
    assert t2.fs == s2.fs.(files := fs'.files);
    assert Obstructed(t2.fs, d) == Obstructed(fs', d);
    assert Obstructed(s2.fs, d) == Obstructed(fs, d);
  }

  /** Running init twice leaves the same file system as running it once. */
  lemma BootstrapIdempotent(fs: FileSystem, home: Path, template: Contents)
    ensures Bootstrap(Bootstrap(fs, home, template), home, template) == Bootstrap(fs, home, template)
  {
    var e := EnvFile(home);
    var laid := MakeLayout(fs, home);
    MakeLayoutIdempotent(fs, home);
    if e !in laid.files {
      var w := WriteFile(laid, e, template);
      if w.ok {
        MakeLayoutIgnoresEnvFile(laid, home, template);
      }
    }
  }
}
