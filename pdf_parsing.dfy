/** The PDF conversion step, `parse_pdfs` (identical in both app files): check
    that `llama-parse` is on the PATH, that it is authenticated and that the
    input folder exists; empty the output folder; then run the parser once per
    `*.pdf` file, counting each file as a success or a failure, and stopping at
    once when the executable disappears.

    The loop is specified by `Run`, a fold over the PDF listing that gives the
    counts, whether the loop was cut short, and the output files written. */
module PdfParsing {
  import opened FsModel
  import opened Config
  import opened PathOrder

  /** The index of the last `c` in `s`, or -1 (Python's `str.rfind`). */
  function LastIndexOf(s: string, c: char): (i: int)
    ensures -1 <= i < |s|
    ensures i >= 0 ==> s[i] == c
    ensures forall k | i < k < |s| :: s[k] != c
  {
    if s == [] then -1
    else if s[|s| - 1] == c then |s| - 1
    else LastIndexOf(s[..|s| - 1], c)
  }

  /** `PurePath.stem`: the name without its last suffix, where a suffix starts
      at the last dot, provided that dot is neither the first nor the last
      character. */
  function Stem(name: string): (r: string)
    ensures r <= name
    ensures r != name ==> 0 < |r| < |name| - 1 && name[|r|] == '.'
    ensures r != name ==> forall k | |r| < k < |name| :: name[k] != '.'
    ensures 0 < LastIndexOf(name, '.') < |name| - 1 ==> r != name
  {
    var i := LastIndexOf(name, '.');
    if 0 < i < |name| - 1 then name[..i] else name
  }

  /** A name the pattern `*.pdf` matches. */
  predicate IsPdfName(name: string) {
    |name| >= 4 && name[|name| - 4..] == ".pdf"
  }

  /** The stem of `<s>.pdf` is `<s>`, for every non-empty `s`. */
  lemma StemOfPdfName(s: string)
    requires s != ""
    ensures Stem(s + ".pdf") == s
  {
    var name := s + ".pdf";
    var i := LastIndexOf(name, '.');
    assert name[|s|] == '.';
    assert forall k | |s| < k < |name| :: name[k] == ".pdf"[k - |s|] != '.';
    assert i == |s|;
    assert name[..i] == s;
  }

  /** `parsed_output_path / f"{pdf.stem}.md"` */
  function OutputFor(outDir: Path, pdf: Path): (r: Path)
    ensures r != [] && Parent(r) == outDir
  {
    Join(outDir, Stem(Name(pdf)) + ".md")
  }

  /** The argument vector handed to the parser for one PDF. */
  function ParseCommand(pdf: Path, out: Path): (r: seq<string>)
    ensures |r| == 7 && r[0] == LLAMA_PARSE_COMMAND
    ensures r[2] == PathString(pdf) && r[4] == PathString(out)
    ensures r[1] == "parse" && r[3] == "-o" && r[5..] == ["--format", "markdown"]
  {
    [LLAMA_PARSE_COMMAND, "parse", PathString(pdf), "-o", PathString(out), "--format", "markdown"]
  }

  /** How the parser run on `pdf` ends. */
  function Attempt(run: seq<string> -> ToolRun, outDir: Path, pdf: Path): ToolRun {
    run(ParseCommand(pdf, OutputFor(outDir, pdf)))
  }

  /** The regular files directly inside `dir` whose names match `*.pdf`; none
      when `dir` is not a directory. */
  function PdfFiles(t: Tree, dir: Path): (r: set<Path>)
    ensures r <= t.files
    ensures forall f | f in r :: f != [] && Parent(f) == dir && IsPdfName(Name(f))
    ensures t.IsDir(dir) ==>
      forall f | f in t.files && f != [] && Parent(f) == dir && IsPdfName(Name(f)) :: f in r
    ensures !t.IsDir(dir) ==> r == {}
  {
    if t.IsDir(dir) then
      set f | f in t.files && f != [] && Parent(f) == dir && IsPdfName(Name(f))
    else {}
  }

  /** `s` lists every element of `all` exactly once. */
  predicate IsListing(s: seq<Path>, all: set<Path>) {
    && (forall i, j | 0 <= i < j < |s| :: s[i] != s[j])
    && (set p | p in s) == all
  }

  /** `list_files(directory, "*.pdf")`: the PDFs of the folder, each once, in
      `sorted()` order. `globFails` says whether the glob raises, in which
      case the exception is swallowed and the listing is empty. */
  method ListPdfs(fs: FileSystem, dir: Path, globFails: bool) returns (pdfs: seq<Path>)
    ensures globFails ==> pdfs == []
    ensures !globFails ==> IsListing(pdfs, PdfFiles(fs.tree, dir))
    ensures Ascending(pdfs)
  {
    if globFails {
      return [];
    }
    pdfs := Sorted(PdfFiles(fs.tree, dir));
  }

  /** What the external world decides for one call of `parse_pdfs`: whether
      `shutil.which` finds the parser, whether its credential file exists,
      which steps of emptying the output folder the system refuses, whether
      listing the PDFs raises, and how each parser run ends. */
  datatype ParseEnv = ParseEnv(
    toolOnPath: bool,
    authenticated: bool,
    prep: DirFaults,
    listFails: bool,
    run: seq<string> -> ToolRun)

  /** The triple `(ok, success_count, failure_count)` that `parse_pdfs` returns. */
  datatype ParseSummary = ParseSummary(ok: bool, successes: nat, failures: nat)

  /** The loop's state: the two counters, whether it stopped on a missing
      executable, and the output files written so far. */
  datatype Tally = Tally(successes: nat, failures: nat, aborted: bool, written: set<Path>)

  const Start := Tally(0, 0, false, {})

  /** One iteration for the PDF whose output file is `out`: a missing
      executable cuts the loop short; otherwise the file is counted once, as a
      success when the run exited with 0 and its output file exists, and as a
      failure otherwise, and the output file is recorded when the run left it. */
  function Step(acc: Tally, out: Path, outcome: ToolRun): (next: Tally)
    ensures next.aborted <==> acc.aborted || outcome.NotFound?
    ensures next.written == acc.written + (if outcome.Wrote() then {out} else {})
    ensures !outcome.NotFound? ==> next.successes + next.failures == acc.successes + acc.failures + 1
    ensures next.successes >= acc.successes && next.failures >= acc.failures
    ensures outcome.NotFound? ==> next.successes == acc.successes && next.failures == acc.failures
    // a success only on exit code 0 with the output file present
    ensures next.successes > acc.successes ==> outcome.Exited? && outcome.code == 0 && out in next.written
  {
    if outcome.NotFound? then acc.(aborted := true)
    else
      var w := if outcome.wroteOutput then acc.written + {out} else acc.written;
      if outcome.Exited? && outcome.code == 0 && out in w then acc.(successes := acc.successes + 1, written := w)
      else acc.(failures := acc.failures + 1, written := w)
  }

  /** The loop over `pdfs`, starting from `acc`, in listing order. Counters
      never go down and files once written stay recorded. */
  function Run(pdfs: seq<Path>, outDir: Path, run: seq<string> -> ToolRun, acc: Tally): (t: Tally)
    ensures t.successes >= acc.successes && t.failures >= acc.failures
    ensures acc.written <= t.written
    decreases |pdfs|
  {
    if pdfs == [] || acc.aborted then acc
    else Run(pdfs[1..], outDir, run, Step(acc, OutputFor(outDir, pdfs[0]), Attempt(run, outDir, pdfs[0])))
  }

  /** The fold stops once the loop is cut short or the listing is used up. */
  lemma RunStops(pdfs: seq<Path>, outDir: Path, run: seq<string> -> ToolRun, acc: Tally)
    requires pdfs == [] || acc.aborted
    ensures Run(pdfs, outDir, run, acc) == acc
  {
  }

  /** The summary after the loop. */
  function Verdict(t: Tally): (r: ParseSummary)
    ensures r.ok <==> !t.aborted && t.failures == 0
    ensures r.successes == t.successes && r.failures == t.failures
  {
    if t.aborted || t.failures > 0 then ParseSummary(false, t.successes, t.failures)
    else ParseSummary(true, t.successes, t.failures)
  }

  /** How many PDFs the loop gets through: all of them, or those before the
      first one whose run finds no executable. */
  function Completed(pdfs: seq<Path>, outDir: Path, run: seq<string> -> ToolRun): (k: nat)
    ensures k <= |pdfs|
    ensures k < |pdfs| ==> Attempt(run, outDir, pdfs[k]).NotFound?
    decreases |pdfs|
  {
    if pdfs == [] || Attempt(run, outDir, pdfs[0]).NotFound? then 0
    else 1 + Completed(pdfs[1..], outDir, run)
  }

  /** `Completed` is the position of the first PDF whose run finds no
      executable: every run before it found one. */
  lemma {:induction false} CompletedIsFirstNotFound(pdfs: seq<Path>, outDir: Path, run: seq<string> -> ToolRun, i: nat)
    requires i < Completed(pdfs, outDir, run)
    ensures !Attempt(run, outDir, pdfs[i]).NotFound?
    decreases |pdfs|
  {
    var rest := pdfs[1..];
    assert Completed(pdfs, outDir, run) == 1 + Completed(rest, outDir, run);
    if i > 0 {
      CompletedIsFirstNotFound(rest, outDir, run, i - 1);
      assert rest[i - 1] == pdfs[i];
    }
  }

  /** The loop is cut short exactly when some run finds no executable. */
  lemma {:induction false} RunAbortsIffIncomplete(pdfs: seq<Path>, outDir: Path, run: seq<string> -> ToolRun, acc: Tally)
    requires !acc.aborted
    ensures Run(pdfs, outDir, run, acc).aborted <==> Completed(pdfs, outDir, run) < |pdfs|
    decreases |pdfs|
  {
    if pdfs != [] {
      var r := Attempt(run, outDir, pdfs[0]);
      var next := Step(acc, OutputFor(outDir, pdfs[0]), r);
      assert Run(pdfs, outDir, run, acc) == Run(pdfs[1..], outDir, run, next);
      if r.NotFound? {
        RunStops(pdfs[1..], outDir, run, next);
      } else {
        assert !next.aborted;
        RunAbortsIffIncomplete(pdfs[1..], outDir, run, next);
      }
    }
  }

  /** Each PDF the loop gets through adds exactly one to exactly one counter,
      so a loop cut short has counted the files before the one whose run found
      no executable. */
  lemma {:induction false} RunCountsEveryFile(pdfs: seq<Path>, outDir: Path, run: seq<string> -> ToolRun, acc: Tally)
    requires !acc.aborted
    ensures Run(pdfs, outDir, run, acc).successes + Run(pdfs, outDir, run, acc).failures
         == acc.successes + acc.failures + Completed(pdfs, outDir, run)
    decreases |pdfs|
  {
    if pdfs != [] {
      var r := Attempt(run, outDir, pdfs[0]);
      var next := Step(acc, OutputFor(outDir, pdfs[0]), r);
      assert Run(pdfs, outDir, run, acc) == Run(pdfs[1..], outDir, run, next);
      if r.NotFound? {
        RunStops(pdfs[1..], outDir, run, next);
      } else {
        assert !next.aborted && next.successes + next.failures == acc.successes + acc.failures + 1;
        RunCountsEveryFile(pdfs[1..], outDir, run, next);
      }
    }
  }

  /** A loop cut short returns the counts and files of the PDFs before the
      one whose run found no executable. */
  lemma {:induction false} RunAbortKeepsPrefix(pdfs: seq<Path>, outDir: Path, run: seq<string> -> ToolRun, acc: Tally)
    requires !acc.aborted && Completed(pdfs, outDir, run) < |pdfs|
    ensures Run(pdfs, outDir, run, acc)
         == Run(pdfs[..Completed(pdfs, outDir, run)], outDir, run, acc).(aborted := true)
    decreases |pdfs|
  {
    if Attempt(run, outDir, pdfs[0]).NotFound? {
      AbortAtFirst(pdfs, outDir, run, acc);
    } else {
      var next := Step(acc, OutputFor(outDir, pdfs[0]), Attempt(run, outDir, pdfs[0]));
      RunAbortKeepsPrefix(pdfs[1..], outDir, run, next);
      AbortLater(pdfs, outDir, run, acc, Completed(pdfs[1..], outDir, run));
    }
  }

  /** The cut-off when the first run already finds no executable. */
  lemma AbortAtFirst(pdfs: seq<Path>, outDir: Path, run: seq<string> -> ToolRun, acc: Tally)
    requires pdfs != [] && !acc.aborted && Attempt(run, outDir, pdfs[0]).NotFound?
    ensures Completed(pdfs, outDir, run) == 0
    ensures Run(pdfs, outDir, run, acc)
         == Run(pdfs[..Completed(pdfs, outDir, run)], outDir, run, acc).(aborted := true)
  {
    var next := Step(acc, OutputFor(outDir, pdfs[0]), Attempt(run, outDir, pdfs[0]));
    RunFirst(pdfs, outDir, run, acc);
    RunStops(pdfs[1..], outDir, run, next);
    RunStops(pdfs[..0], outDir, run, acc);
  }

  /** The cut-off one PDF further on, from the cut-off for the rest of the
      listing. */
  lemma AbortLater(pdfs: seq<Path>, outDir: Path, run: seq<string> -> ToolRun, acc: Tally, k': nat)
    requires pdfs != [] && !acc.aborted && !Attempt(run, outDir, pdfs[0]).NotFound?
    requires k' == Completed(pdfs[1..], outDir, run) && k' < |pdfs| - 1
    requires var next := Step(acc, OutputFor(outDir, pdfs[0]), Attempt(run, outDir, pdfs[0]));
      Run(pdfs[1..], outDir, run, next) == Run(pdfs[1..][..k'], outDir, run, next).(aborted := true)
    ensures Completed(pdfs, outDir, run) == k' + 1
    ensures Run(pdfs, outDir, run, acc)
         == Run(pdfs[..Completed(pdfs, outDir, run)], outDir, run, acc).(aborted := true)
  {
    var next := Step(acc, OutputFor(outDir, pdfs[0]), Attempt(run, outDir, pdfs[0]));
    var prefixRun := Run(pdfs[1..][..k'], outDir, run, next);
    RunFirst(pdfs, outDir, run, acc);
    assert Run(pdfs, outDir, run, acc) == prefixRun.(aborted := true);
    RunPrefixFirst(pdfs, outDir, run, acc, k');
    assert Run(pdfs[..k' + 1], outDir, run, acc) == prefixRun;
    assert Completed(pdfs, outDir, run) == k' + 1;
  }

  /** A non-empty prefix of the listing is one step followed by the fold over
      the rest of that prefix. */
  lemma RunPrefixFirst(pdfs: seq<Path>, outDir: Path, run: seq<string> -> ToolRun, acc: Tally, j: nat)
    requires j < |pdfs| && !acc.aborted
    ensures Run(pdfs[..j + 1], outDir, run, acc)
         == Run(pdfs[1..][..j], outDir, run, Step(acc, OutputFor(outDir, pdfs[0]), Attempt(run, outDir, pdfs[0])))
  {
    var prefix := pdfs[..j + 1];
    assert prefix[0] == pdfs[0] && prefix[1..] == pdfs[1..][..j];
    RunFirst(prefix, outDir, run, acc);
  }

  /** The fold over a non-empty listing is one step followed by the fold over the rest. */
  lemma RunFirst(pdfs: seq<Path>, outDir: Path, run: seq<string> -> ToolRun, acc: Tally)
    requires pdfs != [] && !acc.aborted
    ensures Run(pdfs, outDir, run, acc)
         == Run(pdfs[1..], outDir, run, Step(acc, OutputFor(outDir, pdfs[0]), Attempt(run, outDir, pdfs[0])))
  {
  }

  /** The overall flag: after a loop that got through every PDF it is false
      exactly when some PDF failed; with at least one PDF the counts cannot both
      be zero; and a loop cut short never reports success. */
  lemma ParseVerdict(pdfs: seq<Path>, outDir: Path, run: seq<string> -> ToolRun)
    ensures Verdict(Run(pdfs, outDir, run, Start)).ok <==>
      Completed(pdfs, outDir, run) == |pdfs| && Run(pdfs, outDir, run, Start).failures == 0
    ensures Completed(pdfs, outDir, run) == |pdfs| ==>
      Verdict(Run(pdfs, outDir, run, Start)).successes + Verdict(Run(pdfs, outDir, run, Start)).failures == |pdfs|
  {
    RunAbortsIffIncomplete(pdfs, outDir, run, Start);
    RunCountsEveryFile(pdfs, outDir, run, Start);
  }

  /** A run that exits with code 0 and writes its output file. */
  predicate CleanExit(r: ToolRun) {
    r.Exited? && r.code == 0 && r.wroteOutput
  }

  /** The number of PDFs whose run is a clean exit. */
  function CleanCount(pdfs: seq<Path>, outDir: Path, run: seq<string> -> ToolRun): nat
    decreases |pdfs|
  {
    if pdfs == [] then 0
    else (if CleanExit(Attempt(run, outDir, pdfs[0])) then 1 else 0) + CleanCount(pdfs[1..], outDir, run)
  }

  /** The output files of the PDFs whose run wrote one. */
  function WrittenBy(pdfs: seq<Path>, outDir: Path, run: seq<string> -> ToolRun): set<Path>
    decreases |pdfs|
  {
    if pdfs == [] then {}
    else
      var r := Attempt(run, outDir, pdfs[0]);
      (if r.Wrote() then {OutputFor(outDir, pdfs[0])} else {}) + WrittenBy(pdfs[1..], outDir, run)
  }

  /** No two PDFs share an output file. */
  predicate DistinctOutputs(pdfs: seq<Path>, outDir: Path) {
    forall i, j | 0 <= i < j < |pdfs| :: OutputFor(outDir, pdfs[i]) != OutputFor(outDir, pdfs[j])
  }

  /** When no two PDFs share an output file and the loop runs to the end, a
      PDF counts as a success exactly when its run exits with 0 and writes its
      `<stem>.md`, and the written files are exactly those of the runs that
      wrote one. */
  lemma {:induction false} RunSuccessIsCleanExit(pdfs: seq<Path>, outDir: Path, run: seq<string> -> ToolRun, acc: Tally)
    requires !acc.aborted
    requires DistinctOutputs(pdfs, outDir)
    requires forall p | p in pdfs :: OutputFor(outDir, p) !in acc.written
    requires Completed(pdfs, outDir, run) == |pdfs|
    ensures Run(pdfs, outDir, run, acc).successes == acc.successes + CleanCount(pdfs, outDir, run)
    ensures Run(pdfs, outDir, run, acc).written == acc.written + WrittenBy(pdfs, outDir, run)
    decreases |pdfs|
  {
    if pdfs != [] {
      var out := OutputFor(outDir, pdfs[0]);
      var r := Attempt(run, outDir, pdfs[0]);
      var next := Step(acc, out, r);
      assert out !in acc.written;
      StepOfCompleted(acc, out, r);
      DistinctTail(pdfs, outDir);
      FreshTail(pdfs, outDir, acc.written, next.written);
      assert Run(pdfs, outDir, run, acc) == Run(pdfs[1..], outDir, run, next);
      RunSuccessIsCleanExit(pdfs[1..], outDir, run, next);
    }
  }

  /** One step that finds the executable, on an output file not yet written:
      the loop goes on, and the step is a success exactly on a clean exit. */
  lemma StepOfCompleted(acc: Tally, out: Path, r: ToolRun)
    requires !acc.aborted && !r.NotFound? && out !in acc.written
    ensures !Step(acc, out, r).aborted
    ensures Step(acc, out, r).successes == acc.successes + (if CleanExit(r) then 1 else 0)
  {
  }

  /** After the first PDF's step, the outputs of the others are still unwritten. */
  lemma FreshTail(pdfs: seq<Path>, outDir: Path, before: set<Path>, after: set<Path>)
    requires pdfs != [] && DistinctOutputs(pdfs, outDir)
    requires forall p | p in pdfs :: OutputFor(outDir, p) !in before
    requires after <= before + {OutputFor(outDir, pdfs[0])}
    ensures forall p | p in pdfs[1..] :: OutputFor(outDir, p) !in after
  {
    forall p | p in pdfs[1..]
      ensures OutputFor(outDir, p) !in after
    {
      var j :| 1 <= j < |pdfs| && pdfs[j] == p;
      assert OutputFor(outDir, pdfs[0]) != OutputFor(outDir, pdfs[j]);
    }
  }

  /** The outputs of a listing's tail are distinct when those of the listing are. */
  lemma DistinctTail(pdfs: seq<Path>, outDir: Path)
    requires pdfs != [] && DistinctOutputs(pdfs, outDir)
    ensures DistinctOutputs(pdfs[1..], outDir)
  {
    forall i, j | 0 <= i < j < |pdfs[1..]|
      ensures OutputFor(outDir, pdfs[1..][i]) != OutputFor(outDir, pdfs[1..][j])
    {
      assert pdfs[1..][i] == pdfs[i + 1] && pdfs[1..][j] == pdfs[j + 1];
    }
  }

  /** A name matching `*.pdf`, other than `.pdf` itself, is its stem followed
      by `.pdf`. */
  lemma PdfNameIsStemPlusSuffix(name: string)
    requires IsPdfName(name) && name != ".pdf"
    ensures Stem(name) + ".pdf" == name
  {
    var s := name[..|name| - 4];
    assert name == s + ".pdf";
    StemOfPdfName(s);
  }

  /** Two names with the same `.md` file name are the same. */
  lemma MdNameInjective(x: string, y: string)
    requires x + ".md" == y + ".md"
    ensures x == y
  {
    assert x == (x + ".md")[..|x|];
    assert y == (y + ".md")[..|y|];
  }

  /** A path is its parent joined with its name. */
  lemma ParentJoinName(p: Path)
    requires p != []
    ensures p == Parent(p) + [Name(p)]
  {
  }

  /** Two PDFs of one folder, neither named exactly `.pdf`, that share an
      output file are the same PDF. */
  lemma SameOutputSamePdf(t: Tree, dir: Path, outDir: Path, a: Path, b: Path)
    requires a in PdfFiles(t, dir) && b in PdfFiles(t, dir)
    requires Name(a) != ".pdf" && Name(b) != ".pdf"
    ensures OutputFor(outDir, a) == OutputFor(outDir, b) ==> a == b
  {
    if OutputFor(outDir, a) == OutputFor(outDir, b) {
      assert Name(OutputFor(outDir, a)) == Stem(Name(a)) + ".md";
      assert Name(OutputFor(outDir, b)) == Stem(Name(b)) + ".md";
      MdNameInjective(Stem(Name(a)), Stem(Name(b)));
      PdfNameIsStemPlusSuffix(Name(a));
      PdfNameIsStemPlusSuffix(Name(b));
      ParentJoinName(a);
      ParentJoinName(b);
    }
  }

  /** The PDFs of one folder, none of them named exactly `.pdf`, have pairwise
      different output files (`a.pdf` gives `a.md`). */
  lemma OutputsDistinct(t: Tree, dir: Path, outDir: Path, pdfs: seq<Path>)
    requires IsListing(pdfs, PdfFiles(t, dir))
    requires forall p | p in pdfs :: Name(p) != ".pdf"
    ensures DistinctOutputs(pdfs, outDir)
  {
    forall i, j | 0 <= i < j < |pdfs|
      ensures OutputFor(outDir, pdfs[i]) != OutputFor(outDir, pdfs[j])
    {
      assert pdfs[i] in PdfFiles(t, dir) && pdfs[j] in PdfFiles(t, dir);
      SameOutputSamePdf(t, dir, outDir, pdfs[i], pdfs[j]);
    }
  }

  /** The step succeeds only when the parser is on the PATH, its credential
      file exists and the PDF folder is a directory. */
  predicate GuardsPass(t: Tree, pdfDir: Path, env: ParseEnv) {
    env.toolOnPath && env.authenticated && t.IsDir(pdfDir)
  }

  /** The output files of `pdfs`. */
  function Outputs(outDir: Path, pdfs: seq<Path>): set<Path> {
    set p | p in pdfs :: OutputFor(outDir, p)
  }

  /** The `try` block that empties the output folder: `shutil.rmtree` when
      the path exists, then `mkdir(parents=True, exist_ok=True)`; an `OSError`
      from either makes it fail. */
  method PrepareOutputDir(fs: FileSystem, outDir: Path, faults: DirFaults) returns (ok: bool)
    requires fs.Valid()
    modifies fs
    ensures fs.Valid()
    ensures ok == Reset(old(fs.tree), outDir, faults).0
    ensures fs.tree == Reset(old(fs.tree), outDir, faults).1
  {
    ok := true;
    if fs.tree.Exists(outDir) {
      ok := fs.RemoveTree(outDir, faults.removeDenied);
    }
    if ok {
      ok := fs.MakeDirs(outDir, faults.createDenied);
    }
  }

  /** Writing `out` inside the emptied folder `outDir` adds exactly that file. */
  lemma WriteInside(cleared: Tree, outDir: Path, written: set<Path>, out: Path)
    requires cleared.Valid() && cleared.IsDir(outDir) && cleared.NothingBelow(outDir)
    requires out != [] && Parent(out) == outDir
    ensures cleared.WithFiles(written).CanCreateFile(out)
    ensures cleared.WithFiles(written).WithFiles({out}) == cleared.WithFiles(written + {out})
    ensures cleared.WithFiles(written).Exists(out) <==> out in written
  {
    assert out == outDir + [Name(out)];
    assert outDir < out;
  }

  /** The body of the loop for a run that found the executable: the file the
      run may have written, and the counter the outcome increments. */
  method RecordOutcome(fs: FileSystem, outDir: Path, out: Path, outcome: ToolRun,
                       successes: nat, failures: nat, ghost written: set<Path>, ghost cleared: Tree)
    returns (successes': nat, failures': nat, ghost written': set<Path>)
    requires !outcome.NotFound?
    requires cleared.Valid() && cleared.IsDir(outDir) && cleared.NothingBelow(outDir)
    requires out != [] && Parent(out) == outDir
    requires fs.Valid() && fs.tree == cleared.WithFiles(written)
    modifies fs
    ensures fs.Valid() && fs.tree == cleared.WithFiles(written')
    ensures Tally(successes', failures', false, written') == Step(Tally(successes, failures, false, written), out, outcome)
  {
    successes', failures', written' := successes, failures, written;
    WriteInside(cleared, outDir, written, out);
    if outcome.wroteOutput {
      fs.ToolWrites(out);
      written' := written + {out};
    }
    if outcome.Exited? && outcome.code == 0 && fs.tree.Exists(out) {
      successes' := successes + 1;
    } else {
      failures' := failures + 1;
    }
  }

  /** One iteration: run the parser on `pdf` and record the outcome; a run
      that finds no executable changes nothing and cuts the loop short. */
  method ParseOne(fs: FileSystem, outDir: Path, pdf: Path, run: seq<string> -> ToolRun,
                  successes: nat, failures: nat, ghost written: set<Path>, ghost cleared: Tree)
    returns (successes': nat, failures': nat, aborted: bool, ghost written': set<Path>)
    requires cleared.Valid() && cleared.IsDir(outDir) && cleared.NothingBelow(outDir)
    requires fs.Valid() && fs.tree == cleared.WithFiles(written)
    modifies fs
    ensures fs.Valid() && fs.tree == cleared.WithFiles(written')
    ensures Tally(successes', failures', aborted, written')
         == Step(Tally(successes, failures, false, written), OutputFor(outDir, pdf), Attempt(run, outDir, pdf))
  {
    var out := OutputFor(outDir, pdf);
    var outcome := run(ParseCommand(pdf, out));
    if outcome.NotFound? {
      return successes, failures, true, written;
    }
    successes', failures', written' := RecordOutcome(fs, outDir, out, outcome, successes, failures, written, cleared);
    aborted := false;
  }

  /** The loop over the listing: the counters it returns and the files it
      writes are those of `Run`. */
  method ParseEach(fs: FileSystem, pdfs: seq<Path>, outDir: Path, run: seq<string> -> ToolRun)
    returns (successes: nat, failures: nat, aborted: bool)
    requires fs.Valid() && fs.tree.IsDir(outDir) && fs.tree.NothingBelow(outDir)
    modifies fs
    ensures fs.Valid()
    ensures var t := Run(pdfs, outDir, run, Start);
      && successes == t.successes && failures == t.failures && aborted == t.aborted
      && fs.tree == old(fs.tree).WithFiles(t.written)
  {
    successes, failures, aborted := 0, 0, false;
    ghost var cleared := fs.tree;
    ghost var written: set<Path> := {};
    ghost var goal := Run(pdfs, outDir, run, Start);
    assert cleared.WithFiles({}) == cleared;
    assert pdfs[0..] == pdfs;
    var i := 0;
    while i < |pdfs|
      invariant 0 <= i <= |pdfs|
      invariant fs.Valid() && cleared.Valid()
      invariant fs.tree == cleared.WithFiles(written)
      invariant Run(pdfs[i..], outDir, run, Tally(successes, failures, false, written)) == goal
    {
      ghost var acc := Tally(successes, failures, false, written);
      successes, failures, aborted, written := ParseOne(fs, outDir, pdfs[i], run, successes, failures, written, cleared);
      RunAdvance(pdfs, i, outDir, run, acc, goal);
      if aborted {
        return;
      }
      i := i + 1;
    }
    RunStops(pdfs[i..], outDir, run, Tally(successes, failures, false, written));
  }

  /** The fold over `pdfs[i..]` is one step followed by the fold over
      `pdfs[i + 1..]`, and nothing more when that step cuts the loop short. */
  lemma RunAdvance(pdfs: seq<Path>, i: nat, outDir: Path, run: seq<string> -> ToolRun, acc: Tally, goal: Tally)
    requires i < |pdfs| && !acc.aborted && Run(pdfs[i..], outDir, run, acc) == goal
    ensures var next := Step(acc, OutputFor(outDir, pdfs[i]), Attempt(run, outDir, pdfs[i]));
      && (next.aborted ==> next == goal)
      && (!next.aborted ==> Run(pdfs[i + 1..], outDir, run, next) == goal)
  {
    var next := Step(acc, OutputFor(outDir, pdfs[i]), Attempt(run, outDir, pdfs[i]));
    RunStep(pdfs, i, outDir, run, acc);
    if next.aborted {
      RunStops(pdfs[i + 1..], outDir, run, next);
    }
  }

  /** The fold over `pdfs[i..]` is one step followed by the fold over `pdfs[i + 1..]`. */
  lemma RunStep(pdfs: seq<Path>, i: nat, outDir: Path, run: seq<string> -> ToolRun, acc: Tally)
    requires i < |pdfs| && !acc.aborted
    ensures Run(pdfs[i..], outDir, run, acc)
         == Run(pdfs[i + 1..], outDir, run, Step(acc, OutputFor(outDir, pdfs[i]), Attempt(run, outDir, pdfs[i])))
  {
    assert pdfs[i..][0] == pdfs[i] && pdfs[i..][1..] == pdfs[i + 1..];
  }

  /** The loop writes no file other than the output files of its PDFs. */
  lemma {:induction false} RunWritesOnlyOutputs(pdfs: seq<Path>, outDir: Path, run: seq<string> -> ToolRun, acc: Tally)
    ensures Run(pdfs, outDir, run, acc).written <= acc.written + Outputs(outDir, pdfs)
    decreases |pdfs|
  {
    if pdfs == [] || acc.aborted {
      RunStops(pdfs, outDir, run, acc);
    } else {
      var out := OutputFor(outDir, pdfs[0]);
      var next := Step(acc, out, Attempt(run, outDir, pdfs[0]));
      assert Run(pdfs, outDir, run, acc) == Run(pdfs[1..], outDir, run, next);
      RunWritesOnlyOutputs(pdfs[1..], outDir, run, next);
      OutputsOfTail(outDir, pdfs);
    }
  }

  /** The outputs of a listing are the first one's and those of the rest. */
  lemma OutputsOfTail(outDir: Path, pdfs: seq<Path>)
    requires pdfs != []
    ensures Outputs(outDir, pdfs) == {OutputFor(outDir, pdfs[0])} + Outputs(outDir, pdfs[1..])
  {
    assert forall p | p in pdfs :: p == pdfs[0] || p in pdfs[1..];
  }

  /** What `parse_pdfs` does to the tree `t0`, leaving `t1`, when it returns
      `result` after walking the listing `pdfs`. */
  ghost predicate ParsePdfsSpec(t0: Tree, t1: Tree, pdfDir: Path, outDir: Path, env: ParseEnv,
                                result: ParseSummary, pdfs: seq<Path>)
  {
    // a failed guard changes nothing
    && (!GuardsPass(t0, pdfDir, env) ==>
          result == ParseSummary(false, 0, 0) && t1 == t0)
    // the output folder could not be emptied
    && (GuardsPass(t0, pdfDir, env) && !Reset(t0, outDir, env.prep).0 ==>
          result == ParseSummary(false, 0, 0) && t1 == Reset(t0, outDir, env.prep).1)
    // the loop over the PDFs of the emptied tree
    && (GuardsPass(t0, pdfDir, env) && Reset(t0, outDir, env.prep).0 ==>
          && (env.listFails ==> pdfs == [] && result == ParseSummary(true, 0, 0))
          && (!env.listFails ==> IsListing(pdfs, PdfFiles(Reset(t0, outDir, env.prep).1, pdfDir)))
          && Ascending(pdfs)
          && result == Verdict(Run(pdfs, outDir, env.run, Start))
          && t1 == Reset(t0, outDir, env.prep).1.WithFiles(Run(pdfs, outDir, env.run, Start).written)
          && Run(pdfs, outDir, env.run, Start).written <= Outputs(outDir, pdfs)
          && t1.IsDir(outDir))
  }

  /** `parse_pdfs(pdf_input_dir, parsed_output_dir)`. The ghost `pdfs` is the
      listing the loop walks. */
  method ParsePdfs(fs: FileSystem, pdfDir: Path, outDir: Path, env: ParseEnv)
    returns (result: ParseSummary, ghost pdfs: seq<Path>)
    requires fs.Valid()
    modifies fs
    ensures fs.Valid()
    ensures ParsePdfsSpec(old(fs.tree), fs.tree, pdfDir, outDir, env, result, pdfs)
  {
    pdfs := [];
    ghost var t0 := fs.tree;
    if !env.toolOnPath || !env.authenticated || !fs.tree.IsDir(pdfDir) {
      return ParseSummary(false, 0, 0), pdfs;
    }
    var prepared := PrepareOutputDir(fs, outDir, env.prep);
    if !prepared {
      return ParseSummary(false, 0, 0), pdfs;
    }
    ResetOutcome(t0, outDir, env.prep);
    var listing := ListPdfs(fs, pdfDir, env.listFails);
    pdfs := listing;
    if |listing| == 0 {
      assert fs.tree.WithFiles({}) == fs.tree;
      return ParseSummary(true, 0, 0), pdfs;
    }
    var successes, failures, aborted := ParseEach(fs, listing, outDir, env.run);
    RunWritesOnlyOutputs(listing, outDir, env.run, Start);
    if aborted {
      result := ParseSummary(false, successes, failures);
    } else if failures > 0 {
      result := ParseSummary(false, successes, failures);
    } else if successes > 0 {
      result := ParseSummary(true, successes, failures);
    } else {
      result := ParseSummary(true, successes, failures);
    }
  }
}
