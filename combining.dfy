/** The combining step, `combine_files_via_cli` (both app files): keep the
    requested folders that are directories, make sure the output file's folder
    exists, run `files-to-prompt <dirs> --cxml -o <out>`, and return the text
    of the output file when the run exits with 0, the file exists and reading
    it back works. The source passes every path through `shlex.quote` before
    handing the vector to `subprocess.run` without a shell; that vector is
    `QuotedCommand`, and `QuotedCommandWrapsSpacedPath` shows where it goes
    wrong. The drivers below run the vector the tool needs, `Command`, which
    is the same whenever every path consists of safe characters
    (`QuotingHarmlessIffSafe`). */
module Combining {
  import opened Options
  import opened FsModel
  import opened Config

  /** The requested folders that are directories, in request order. */
  function Directories(t: Tree, requested: seq<Path>): (r: seq<Path>)
    ensures forall p :: p in r <==> p in requested && t.IsDir(p)
    ensures |r| <= |requested|
    decreases |requested|
  {
    if requested == [] then []
    else
      var last := requested[|requested| - 1];
      var init := requested[..|requested| - 1];
      assert requested == init + [last];
      Directories(t, init) + (if t.IsDir(last) then [last] else [])
  }

  /** Filtering a concatenation filters each part, so the kept folders stay
      in request order. */
  lemma {:induction false} DirectoriesKeepOrder(t: Tree, a: seq<Path>, b: seq<Path>)
    ensures Directories(t, a + b) == Directories(t, a) + Directories(t, b)
    decreases |b|
  {
    if b != [] {
      var init := b[..|b| - 1];
      assert a + b == (a + init) + [b[|b| - 1]];
      assert (a + b)[..|a + b| - 1] == a + init;
      DirectoriesKeepOrder(t, a, init);
    } else {
      assert a + b == a;
    }
  }

  /** When every requested folder is a directory, all are kept. */
  lemma {:induction false} DirectoriesOfDirectories(t: Tree, requested: seq<Path>)
    requires forall p | p in requested :: t.IsDir(p)
    ensures Directories(t, requested) == requested
    decreases |requested|
  {
    if requested != [] {
      var init := requested[..|requested| - 1];
      assert requested == init + [requested[|requested| - 1]];
      DirectoriesOfDirectories(t, init);
    }
  }

  /** The uploader's loop that appends each requested folder that
      `is_dir()`, warning about and skipping the others. */
  method ValidDirectories(fs: FileSystem, requested: seq<Path>) returns (valid: seq<Path>)
    ensures valid == Directories(fs.tree, requested)
  {
    valid := [];
    var i := 0;
    while i < |requested|
      invariant 0 <= i <= |requested|
      invariant valid == Directories(fs.tree, requested[..i])
    {
      assert requested[..i + 1][..i] == requested[..i];
      if fs.tree.IsDir(requested[i]) {
        valid := valid + [requested[i]];
      }
      i := i + 1;
    }
    assert requested[..i] == requested;
  }

  /** The comprehension of `context-generator-app.py`, which keeps a folder
      when `is_dir()` holds or when the value returned by `st.warning(...)` is
      truthy; that value comes from the UI library and is the input
      `warningTruthy`. */
  function AppDirectories(t: Tree, requested: seq<Path>, warningTruthy: bool): (r: seq<Path>)
    ensures |r| <= |requested|
    ensures forall p | p in r :: p in requested
    ensures forall p | p in requested && t.IsDir(p) :: p in r
    decreases |requested|
  {
    if requested == [] then []
    else
      var last := requested[|requested| - 1];
      AppDirectories(t, requested[..|requested| - 1], warningTruthy)
        + (if t.IsDir(last) || warningTruthy then [last] else [])
  }

  /** If the warning's value is falsy the comprehension is the directory
      filter; if it is truthy, every requested folder is kept, directory or
      not. When every folder is a directory the two agree. */
  lemma {:induction false} AppDirectoriesFilter(t: Tree, requested: seq<Path>, warningTruthy: bool)
    ensures !warningTruthy ==> AppDirectories(t, requested, warningTruthy) == Directories(t, requested)
    ensures warningTruthy ==> AppDirectories(t, requested, warningTruthy) == requested
    ensures (forall p | p in requested :: t.IsDir(p)) ==> AppDirectories(t, requested, warningTruthy) == requested
    decreases |requested|
  {
    if requested != [] {
      var init := requested[..|requested| - 1];
      assert requested == init + [requested[|requested| - 1]];
      AppDirectoriesFilter(t, init, warningTruthy);
      if forall p | p in requested :: t.IsDir(p) {
        DirectoriesOfDirectories(t, requested);
      }
    }
  }

  /** A character `shlex.quote` leaves alone: ASCII letters and digits and
      `_@%+=:,./-`. */
  predicate SafeChar(c: char) {
    || 'a' <= c <= 'z' || 'A' <= c <= 'Z' || '0' <= c <= '9'
    || c in "_@%+=:,./-"
  }

  predicate AllSafe(s: string) {
    forall i | 0 <= i < |s| :: SafeChar(s[i])
  }

  /** `s.replace("'", "'\"'\"'")` */
  function EscapeQuotes(s: string): (r: string)
    ensures |r| >= |s|
    ensures '\'' !in s ==> r == s
  {
    if s == [] then []
    else (if s[0] == '\'' then "'\"'\"'" else [s[0]]) + EscapeQuotes(s[1..])
  }

  /** `shlex.quote(s)` */
  function Quote(s: string): (r: string)
    ensures r != ""
    ensures r == s || (|r| >= 2 && r[0] == '\'' && r[|r| - 1] == '\'')
  {
    if s == "" then "''"
    else if AllSafe(s) then s
    else "'" + EscapeQuotes(s) + "'"
  }

  /** Quoting leaves a string unchanged exactly when it is non-empty and made
      of safe characters only. */
  lemma QuoteChanges(s: string)
    ensures Quote(s) == s <==> s != "" && AllSafe(s)
  {
    if s != "" && !AllSafe(s) {
      assert |Quote(s)| >= |s| + 2;
    }
  }

  /** `str(p)` is never empty. */
  lemma PathStringNonEmpty(p: Path)
    ensures PathString(p) != ""
  {
    if p != [] {
      assert PathString(p) == Slashed(p[..|p| - 1]) + "/" + p[|p| - 1];
    }
  }

  /** `str(d)` of each folder. */
  function Args(valid: seq<Path>): (r: seq<string>)
    ensures |r| == |valid|
  {
    seq(|valid|, i requires 0 <= i < |valid| => PathString(valid[i]))
  }

  /** `[shlex.quote(a) for a in args]` */
  function QuoteAll(args: seq<string>): (r: seq<string>)
    ensures |r| == |args|
  {
    seq(|args|, i requires 0 <= i < |args| => Quote(args[i]))
  }

  /** The argument vector as the tool needs it: the folder and file names as
      they are, since `subprocess.run` without a shell hands each element to
      the program unchanged. */
  function Command(valid: seq<Path>, out: Path): (r: seq<string>)
    ensures |r| == |valid| + 4
    ensures r[0] == FILES_TO_PROMPT_COMMAND && r[|r| - 1] == PathString(out)
    ensures r[|r| - 3..|r| - 1] == ["--cxml", "-o"]
  {
    [FILES_TO_PROMPT_COMMAND] + Args(valid) + ["--cxml", "-o", PathString(out)]
  }

  /** The argument vector as written: every path passed through `shlex.quote`
      first, although no shell will remove the quotes. */
  function QuotedCommand(valid: seq<Path>, out: Path): (r: seq<string>)
    ensures |r| == |valid| + 4
    ensures r[0] == FILES_TO_PROMPT_COMMAND && r[|r| - 1] == Quote(PathString(out))
    ensures r[|r| - 3..|r| - 1] == ["--cxml", "-o"]
  {
    [FILES_TO_PROMPT_COMMAND] + QuoteAll(Args(valid)) + ["--cxml", "-o", Quote(PathString(out))]
  }

  /** Two vectors with the same head and equally long middles are equal
      exactly when their middles and their tails are. */
  lemma SplitEquality(h: seq<string>, m1: seq<string>, m2: seq<string>, t1: seq<string>, t2: seq<string>)
    requires |m1| == |m2|
    ensures h + m1 + t1 == h + m2 + t2 <==> m1 == m2 && t1 == t2
  {
    if h + m1 + t1 == h + m2 + t2 {
      assert m1 == (h + m1 + t1)[|h|..|h| + |m1|];
      assert m2 == (h + m2 + t2)[|h|..|h| + |m2|];
      assert t1 == (h + m1 + t1)[|h| + |m1|..];
      assert t2 == (h + m2 + t2)[|h| + |m2|..];
    }
  }

  /** Quoting a list of arguments leaves it unchanged exactly when every
      argument is non-empty and made of safe characters. */
  lemma QuoteAllUnchanged(args: seq<string>)
    ensures QuoteAll(args) == args <==> forall i | 0 <= i < |args| :: args[i] != "" && AllSafe(args[i])
  {
    forall i | 0 <= i < |args|
      ensures QuoteAll(args)[i] == args[i] <==> args[i] != "" && AllSafe(args[i])
    {
      QuoteChanges(args[i]);
    }
    if QuoteAll(args) != args {
      var i :| 0 <= i < |args| && QuoteAll(args)[i] != args[i];
    }
  }

  /** The quoted command is the one the tool needs exactly when every path
      in it consists of safe characters only. */
  lemma QuotingHarmlessIffSafe(valid: seq<Path>, out: Path)
    ensures QuotedCommand(valid, out) == Command(valid, out) <==>
      AllSafe(PathString(out)) && forall i | 0 <= i < |valid| :: AllSafe(PathString(valid[i]))
  {
    SplitEquality([FILES_TO_PROMPT_COMMAND], QuoteAll(Args(valid)), Args(valid),
      ["--cxml", "-o", Quote(PathString(out))], ["--cxml", "-o", PathString(out)]);
    QuoteAllUnchanged(Args(valid));
    forall i | 0 <= i < |valid|
      ensures (Args(valid)[i] != "" && AllSafe(Args(valid)[i])) <==> AllSafe(PathString(valid[i]))
    {
      PathStringNonEmpty(valid[i]);
    }
    PathStringNonEmpty(out);
    QuoteChanges(PathString(out));
    assert ["--cxml", "-o", Quote(PathString(out))] == ["--cxml", "-o", PathString(out)]
      <==> Quote(PathString(out)) == PathString(out);
  }

  /** A string with a space and no single quote is quoted by wrapping it in
      single quotes. */
  lemma QuoteWrapsSpaced(s: string)
    requires ' ' in s && '\'' !in s
    ensures Quote(s) == "'" + s + "'"
  {
    var k :| 0 <= k < |s| && s[k] == ' ';
    assert !SafeChar(s[k]);
  }

  /** The element of either vector that stands for the `i`-th folder. */
  lemma CommandsAt(valid: seq<Path>, out: Path, i: nat)
    requires i < |valid|
    ensures QuotedCommand(valid, out)[i + 1] == Quote(PathString(valid[i]))
    ensures Command(valid, out)[i + 1] == PathString(valid[i])
  {
    MiddleAt([FILES_TO_PROMPT_COMMAND], QuoteAll(Args(valid)), ["--cxml", "-o", Quote(PathString(out))], i);
    MiddleAt([FILES_TO_PROMPT_COMMAND], Args(valid), ["--cxml", "-o", PathString(out)], i);
  }

  /** Behind a one-element head, the middle part starts at index 1. */
  lemma MiddleAt(h: seq<string>, m: seq<string>, t: seq<string>, i: nat)
    requires |h| == 1 && i < |m|
    ensures (h + m + t)[i + 1] == m[i]
  {
  }

  /** A folder whose name holds a space (and no single quote) reaches the tool
      wrapped in quote characters, a path that does not exist, instead of
      as itself. */
  lemma QuotedCommandWrapsSpacedPath(valid: seq<Path>, out: Path, i: nat)
    requires i < |valid|
    requires ' ' in PathString(valid[i]) && '\'' !in PathString(valid[i])
    ensures QuotedCommand(valid, out)[i + 1] == "'" + PathString(valid[i]) + "'"
    ensures Command(valid, out)[i + 1] == PathString(valid[i])
    ensures QuotedCommand(valid, out) != Command(valid, out)
  {
    var s := PathString(valid[i]);
    QuoteWrapsSpaced(s);
    CommandsAt(valid, out, i);
    assert |"'" + s + "'"| != |s|;
  }

  /** The folder `/home/u/my docs` reaches the tool as `'/home/u/my docs'`. */
  lemma QuotedCommandMangledExample()
    ensures QuotedCommand([["home", "u", "my docs"]], ["tmp", "out.txt"])
         != Command([["home", "u", "my docs"]], ["tmp", "out.txt"])
  {
    var p: Path := ["home", "u", "my docs"];
    assert p[..2] == ["home", "u"];
    assert PathString(p) == Slashed(["home", "u"]) + "/" + "my docs";
    var s := PathString(p);
    assert s[|s| - 5] == ' ';
    assert '\'' !in Slashed(["home", "u"]) by {
      assert ["home", "u"][..1] == ["home"] && ["home"][..0] == [];
      assert Slashed(["home", "u"]) == Slashed(["home"]) + "/" + "u";
      assert Slashed(["home"]) == Slashed([]) + "/" + "home";
    }
    QuotedCommandWrapsSpacedPath([p], ["tmp", "out.txt"], 0);
  }

  /** What the external world decides for one call of the combiner: whether
      `shutil.which` finds the tool, whether creating the output file's folder
      is refused, how the run ends, and what reading the output file back
      gives when it is a regular file. */
  datatype CombineEnv = CombineEnv(
    toolOnPath: bool,
    outDirDenied: bool,
    run: seq<string> -> ToolRun,
    read: ReadOutcome)

  /** The tree after a run of the tool that may have written `out`. */
  function AfterRun(t: Tree, out: Path, r: ToolRun): Tree {
    if r.Wrote() && t.CanCreateFile(out) then t.WithFiles({out}) else t
  }

  /** The result of the part after the filter (creating the output folder,
      running the tool, checking the file and reading it), with the tree it
      leaves. */
  function CombineOutcome(t: Tree, valid: seq<Path>, out: Path, env: CombineEnv): (r: (Option<string>, Tree))
    ensures r.0.Some? ==> env.read.ReadOk? && r.0.value == env.read.text && r.1.IsFile(out)
    ensures r.0.Some? ==> env.run(Command(valid, out)).Exited? && env.run(Command(valid, out)).code == 0
    ensures !t.MkdirSucceeds(Parent(out), env.outDirDenied) ==> r == (None, t)
  {
    if !t.MkdirSucceeds(Parent(out), env.outDirDenied) then (None, t)
    else
      var t1 := t.WithDirs(Parent(out));
      var r := env.run(Command(valid, out));
      var t2 := AfterRun(t1, out, r);
      if r.Exited? && r.code == 0 && t2.Exists(out) && t2.IsFile(out) && env.read.ReadOk? then
        (Some(env.read.text), t2)
      else (None, t2)
  }

  /** Content comes back exactly when the output folder could be made, the
      tool exited with 0, the output is a regular file afterwards and it could
      be read; the content is then what was read. Nothing but the output
      file's ancestors and the output file itself is added, and nothing is
      removed. */
  lemma CombineOutcomeSpec(t: Tree, valid: seq<Path>, out: Path, env: CombineEnv)
    requires t.Valid()
    ensures var (content, t2) := CombineOutcome(t, valid, out, env);
      && t2.Valid()
      && (content.Some? <==>
          && t.MkdirSucceeds(Parent(out), env.outDirDenied)
          && env.run(Command(valid, out)).Exited?
          && env.run(Command(valid, out)).code == 0
          && t2.IsFile(out)
          && env.read.ReadOk?)
      && (content.Some? ==> content.value == env.read.text)
      && t.dirs <= t2.dirs && t.files <= t2.files
      && t2.dirs - t.dirs <= Prefixes(Parent(out))
      && t2.files - t.files <= {out}
  {
    if t.MkdirSucceeds(Parent(out), env.outDirDenied) {
      WithDirsValid(t, Parent(out), env.outDirDenied);
      var t1 := t.WithDirs(Parent(out));
      var r := env.run(Command(valid, out));
      if r.Wrote() && t1.CanCreateFile(out) {
        WriteValid(t1, out);
      }
    }
  }

  /** Writing a file whose folder exists keeps the tree well formed. */
  lemma WriteValid(t: Tree, p: Path)
    requires t.Valid() && t.CanCreateFile(p)
    ensures t.WithFiles({p}).Valid()
  {
  }

  /** The part of `combine_files_via_cli` after the filter: `mkdir` of the
      output file's folder, the run, the existence check and the read. */
  method RunCombiner(fs: FileSystem, valid: seq<Path>, out: Path, env: CombineEnv)
    returns (ok: bool, content: Option<string>)
    requires fs.Valid()
    modifies fs
    ensures fs.Valid()
    ensures ok <==> content.Some?
    ensures content == CombineOutcome(old(fs.tree), valid, out, env).0
    ensures fs.tree == CombineOutcome(old(fs.tree), valid, out, env).1
  {
    ghost var t := fs.tree;
    var made := fs.MakeDirs(Parent(out), env.outDirDenied);
    if !made {
      return false, None;
    }
    var run := env.run(Command(valid, out));
    match run {
      case Exited(code, wrote) =>
        if wrote {
          fs.ToolWrites(out);
        }
        if code == 0 {
          if fs.tree.Exists(out) {
            var read := if fs.tree.IsFile(out) then env.read else ReadFailed;
            match read {
              case ReadOk(text) => return true, Some(text);
              case ReadFailed => return false, None;
            }
          } else {
            return false, None;
          }
        } else {
          return false, None;
        }
      case TimedOut(wrote) =>
        if wrote {
          fs.ToolWrites(out);
        }
        return false, None;
      case NotFound => return false, None;
      case Crashed(wrote) =>
        if wrote {
          fs.ToolWrites(out);
        }
        return false, None;
    }
  }

  /** `combine_files_via_cli` of the uploader. The ghost `valid` is the list
      of folders handed to the tool. */
  method CombineFiles(fs: FileSystem, requested: seq<Path>, out: Path, env: CombineEnv)
    returns (ok: bool, content: Option<string>, ghost valid: seq<Path>)
    requires fs.Valid()
    modifies fs
    ensures fs.Valid()
    ensures ok <==> content.Some?
    ensures valid == Directories(old(fs.tree), requested)
    // a missing tool, an empty request or no directory among it: nothing runs
    ensures !env.toolOnPath || valid == [] ==> !ok && fs.tree == old(fs.tree)
    ensures env.toolOnPath && valid != [] ==>
      (content, fs.tree) == CombineOutcome(old(fs.tree), valid, out, env)
  {
    valid := Directories(fs.tree, requested);
    if !env.toolOnPath {
      return false, None, valid;
    }
    if requested == [] {
      return false, None, valid;
    }
    var dirs := ValidDirectories(fs, requested);
    if dirs == [] {
      return false, None, valid;
    }
    ok, content := RunCombiner(fs, dirs, out, env);
  }

  /** `combine_files_via_cli` of `context-generator-app.py`, whose filter is
      `AppDirectories`. */
  method CombineFilesApp(fs: FileSystem, requested: seq<Path>, out: Path, env: CombineEnv, warningTruthy: bool)
    returns (ok: bool, content: Option<string>, ghost valid: seq<Path>)
    requires fs.Valid()
    modifies fs
    ensures fs.Valid()
    ensures ok <==> content.Some?
    ensures valid == AppDirectories(old(fs.tree), requested, warningTruthy)
    ensures !env.toolOnPath || valid == [] ==> !ok && fs.tree == old(fs.tree)
    ensures env.toolOnPath && valid != [] ==>
      (content, fs.tree) == CombineOutcome(old(fs.tree), valid, out, env)
  {
    valid := AppDirectories(fs.tree, requested, warningTruthy);
    if !env.toolOnPath {
      return false, None, valid;
    }
    if requested == [] {
      return false, None, valid;
    }
    var dirs := AppDirectories(fs.tree, requested, warningTruthy);
    if dirs == [] {
      return false, None, valid;
    }
    ok, content := RunCombiner(fs, dirs, out, env);
  }
}
