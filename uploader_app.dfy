/** The "Generate Context File" handler of the uploader app: parse the PDFs
    into `<txt>/parsed_pdfs_streamlit` when the chosen content includes PDFs,
    collect the folders to combine, and run the combiner on them.

    As written, the check meant to avoid scanning the parsed folder twice
    (`relative_to`) always succeeds, because the parsed folder is always
    inside the TXT folder, so the TXT folder is never collected
    (`TxtStepAsWritten`, `TxtFolderNeverCollected`); `GenerateContextAsWritten`
    is the handler with that step. `GenerateContext` uses the evident intent
    instead (`TxtStep`): collect the TXT folder, which the recursive combiner
    scans together with the parsed folder inside it, in place of any
    collected folder beneath it. */
module UploaderApp {
  import opened Options
  import opened FsModel
  import opened Config
  import opened PdfParsing
  import opened Combining

  /** The TXT step as written: append the TXT folder unless it is already
      collected or `parsed.relative_to(txt)` succeeds. */
  function TxtStepAsWritten(dirs: seq<Path>, txt: Path, parsed: Path): (r: seq<Path>)
    ensures r == dirs || r == dirs + [txt]
    ensures RelativeTo(parsed, txt) || txt in dirs ==> r == dirs
    ensures !RelativeTo(parsed, txt) && txt !in dirs ==> r == dirs + [txt]
  {
    if txt !in dirs && !RelativeTo(parsed, txt) then dirs + [txt] else dirs
  }

  /** With the parsed folder where the handler puts it, the TXT step as
      written never collects the TXT folder: in TXT-only mode the list stays
      empty and nothing is combined, and in Both mode the files of the TXT
      folder are left out. */
  lemma TxtFolderNeverCollected(dirs: seq<Path>, txt: Path)
    ensures TxtStepAsWritten(dirs, txt, ParsedDir(txt)) == dirs
    ensures TxtStepAsWritten([], txt, ParsedDir(txt)) == []
  {
  }

  /** The collected folders with everything at or beneath `txt` removed. */
  function OutsideOf(dirs: seq<Path>, txt: Path): (r: seq<Path>)
    ensures forall d :: d in r <==> d in dirs && !(txt <= d)
    decreases |dirs|
  {
    if dirs == [] then []
    else
      var last := dirs[|dirs| - 1];
      var init := dirs[..|dirs| - 1];
      assert dirs == init + [last];
      OutsideOf(init, txt) + (if txt <= last then [] else [last])
  }

  /** The TXT step as intended: the TXT folder is collected, and a collected
      folder beneath it (the parsed folder) is dropped because the recursive
      combiner reaches it through the TXT folder. */
  function TxtStep(dirs: seq<Path>, txt: Path): (r: seq<Path>)
    ensures txt in r
    ensures forall d | d in dirs :: d in r || txt <= d
    ensures forall d | d in r :: d == txt || d in dirs
    ensures forall d | d in r && d != txt :: !(txt <= d)
  {
    OutsideOf(dirs, txt) + [txt]
  }

  /** In Both mode after a successful parse, the intended step collects just
      the TXT folder, which holds the parsed folder. */
  lemma TxtStepAfterParse(txt: Path)
    ensures TxtStep([ParsedDir(txt)], txt) == [txt]
    ensures TxtStep([], txt) == [txt]
  {
    assert OutsideOf([ParsedDir(txt)], txt) == [];
  }

  /** `any(Path(pdf_dir).glob("*.pdf"))`: some entry of the folder, file or
      folder, has a name matching `*.pdf`. */
  predicate AnyPdfEntry(t: Tree, dir: Path) {
    exists q | q in t.dirs + t.files :: q != [] && Parent(q) == dir && IsPdfName(Name(q))
  }

  /** A PDF file the parser would list is an entry the glob finds. */
  lemma PdfFileIsPdfEntry(t: Tree, dir: Path)
    ensures PdfFiles(t, dir) != {} ==> AnyPdfEntry(t, dir)
  {
    if PdfFiles(t, dir) != {} {
      var q :| q in PdfFiles(t, dir);
      assert q in t.dirs + t.files;
    }
  }

  /** A directory's parent is a directory. */
  lemma ParentIsDir(t: Tree, p: Path)
    requires t.Valid() && t.IsDir(p) && p != []
    ensures t.IsDir(Parent(p))
  {
  }

  /** Step 1 of the handler: `parse_pdfs` into the parsed folder when the
      chosen content includes PDFs, and the verdict on that step. The parsed
      folder is collected when at least one PDF was parsed and none failed.
      In PDF-only mode the step also fails when nothing was parsed although
      the PDF folder has an entry named `*.pdf`. */
  method ParseStep(fs: FileSystem, mode: Mode, pdfDir: Path, parsedDir: Path, penv: ParseEnv)
    returns (stepOk: bool, dirs: seq<Path>, ghost parse: Option<ParseSummary>, ghost pdfs: seq<Path>)
    requires fs.Valid() && parsedDir != []
    modifies fs
    ensures fs.Valid()
    ensures parse.Some? <==> mode != TxtOnly
    // the summary and the tree are those `parse_pdfs` gives on the old tree
    ensures parse.Some? ==> ParsePdfsSpec(old(fs.tree), fs.tree, pdfDir, parsedDir, penv, parse.value, pdfs)
    ensures mode == TxtOnly ==> stepOk && dirs == [] && fs.tree == old(fs.tree)
    ensures parse.Some? ==>
      && dirs == (if parse.value.ok && parse.value.successes > 0 then [parsedDir] else [])
      && (parse.value.ok ==> fs.tree.IsDir(parsedDir) && fs.tree.IsDir(Parent(parsedDir)))
    ensures mode == Both ==> stepOk == parse.value.ok
    ensures mode == PdfOnly ==>
      (stepOk <==>
        parse.value.ok
        && !(parse.value.successes == 0 && parse.value.failures == 0 && AnyPdfEntry(fs.tree, pdfDir)))
  {
    dirs, stepOk, parse, pdfs := [], true, None, [];
    if mode == PdfOnly || mode == Both {
      var summary;
      summary, pdfs := ParsePdfs(fs, pdfDir, parsedDir, penv);
      parse := Some(summary);
      stepOk := summary.ok;
      if !summary.ok {
      } else if summary.successes == 0 && summary.failures == 0 {
        if AnyPdfEntry(fs.tree, pdfDir) && mode == PdfOnly {
          stepOk := false;
        }
      } else if summary.successes > 0 {
        if fs.tree.IsDir(parsedDir) {
          dirs := dirs + [parsedDir];
        } else if mode == PdfOnly {
          stepOk := false;
        }
      }
      if summary.ok {
        ParentIsDir(fs.tree, parsedDir);
      }
    }
  }

  /** Step 3: hand the collected folders, all of them directories, to the
      combiner, unless there are none. */
  method CombineStep(fs: FileSystem, dirs: seq<Path>, out: Path, cenv: CombineEnv)
    returns (content: Option<string>, ghost requested: Option<seq<Path>>)
    requires fs.Valid() && forall d | d in dirs :: fs.tree.IsDir(d)
    modifies fs
    ensures fs.Valid()
    ensures requested == if dirs == [] then None else Some(dirs)
    ensures requested.None? ==> content == None && fs.tree == old(fs.tree)
    ensures requested.Some? && !cenv.toolOnPath ==> content == None && fs.tree == old(fs.tree)
    ensures requested.Some? && cenv.toolOnPath ==>
      (content, fs.tree) == CombineOutcome(old(fs.tree), dirs, out, cenv)
  {
    content, requested := None, None;
    if dirs != [] {
      requested := Some(dirs);
      DirectoriesOfDirectories(fs.tree, dirs);
      var ok, combined, valid := CombineFiles(fs, dirs, out, cenv);
      if ok {
        content := combined;
      }
    }
  }

  /** Steps 2 and 3 of the handler as written, once step 1 let it go on:
      the TXT step with `TxtStepAsWritten`, then the combiner on the
      collected folders. The TXT step never adds a folder, so the folders
      from step 1 are the ones combined. */
  method CollectAndCombineAsWritten(fs: FileSystem, mode: Mode, dirs: seq<Path>, txtDir: Path, out: Path,
                                    cenv: CombineEnv)
    returns (content: Option<string>, ghost requested: Option<seq<Path>>)
    requires fs.Valid()
    requires mode == TxtOnly ==> dirs == []
    requires dirs == [] || (dirs == [ParsedDir(txtDir)] && fs.tree.IsDir(ParsedDir(txtDir)))
    modifies fs
    ensures fs.Valid()
    ensures requested == if dirs == [] then None else Some(dirs)
    ensures requested.None? ==> content == None && fs.tree == old(fs.tree)
    ensures requested.Some? && !cenv.toolOnPath ==> content == None && fs.tree == old(fs.tree)
    ensures requested.Some? && cenv.toolOnPath ==>
      (content, fs.tree) == CombineOutcome(old(fs.tree), dirs, out, cenv)
  {
    var collected := dirs;
    var possible := true;
    if mode == TxtOnly || mode == Both {
      if !fs.tree.IsDir(txtDir) {
        if mode == TxtOnly {
          possible := false;
        }
      } else {
        TxtFolderNeverCollected(dirs, txtDir);
        collected := TxtStepAsWritten(dirs, txtDir, ParsedDir(txtDir));
      }
    }
    content, requested := None, None;
    if possible {
      content, requested := CombineStep(fs, collected, out, cenv);
    }
  }

  /** Steps 2 and 3 of the handler as intended: the TXT step with `TxtStep`
      when the TXT folder is a directory, then the combiner on the collected
      folders. */
  method CollectAndCombine(fs: FileSystem, mode: Mode, dirs: seq<Path>, txtDir: Path, out: Path,
                           cenv: CombineEnv)
    returns (content: Option<string>, ghost requested: Option<seq<Path>>)
    requires fs.Valid()
    requires mode == TxtOnly ==> dirs == []
    requires dirs == [] || (dirs == [ParsedDir(txtDir)] && fs.tree.IsDir(ParsedDir(txtDir)))
    modifies fs
    ensures fs.Valid()
    ensures mode == PdfOnly || !old(fs.tree).IsDir(txtDir) ==>
      requested == if dirs == [] then None else Some(dirs)
    ensures mode != PdfOnly && old(fs.tree).IsDir(txtDir) ==> requested == Some([txtDir])
    ensures requested.Some? ==> forall d | d in requested.value :: old(fs.tree).IsDir(d)
    ensures requested.None? ==> content == None && fs.tree == old(fs.tree)
    ensures requested.Some? && !cenv.toolOnPath ==> content == None && fs.tree == old(fs.tree)
    ensures requested.Some? && cenv.toolOnPath ==>
      (content, fs.tree) == CombineOutcome(old(fs.tree), requested.value, out, cenv)
  {
    var collected := dirs;
    var possible := true;
    if mode == TxtOnly || mode == Both {
      if !fs.tree.IsDir(txtDir) {
        if mode == TxtOnly {
          possible := false;
        }
      } else {
        TxtStepAfterParse(txtDir);
        collected := TxtStep(dirs, txtDir);
      }
    }
    content, requested := None, None;
    if possible {
      content, requested := CombineStep(fs, collected, out, cenv);
    }
  }

  /** The handler as written, with `TxtStepAsWritten`: TXT-only mode never
      combines anything, and in the other modes only the parsed folder is
      combined, the files of the TXT folder never. */
  method GenerateContextAsWritten(fs: FileSystem, mode: Mode, pdfDir: Path, txtDir: Path, out: Path,
                                  penv: ParseEnv, cenv: CombineEnv)
    returns (content: Option<string>, ghost parse: Option<ParseSummary>, ghost pdfs: seq<Path>,
             ghost requested: Option<seq<Path>>, ghost scanned: Tree)
    requires fs.Valid()
    modifies fs
    ensures fs.Valid()
    ensures parse.Some? <==> mode != TxtOnly
    // with PDFs included, the summary and the scanned tree are those `parse_pdfs` gives on the old tree
    ensures mode != TxtOnly ==>
      ParsePdfsSpec(old(fs.tree), scanned, pdfDir, ParsedDir(txtDir), penv, parse.value, pdfs)
    // TXT only: nothing is combined and nothing changes
    ensures mode == TxtOnly ==>
      requested == None && content == None && scanned == old(fs.tree) && fs.tree == old(fs.tree)
    // PDF only and Both: the parsed folder alone, when a PDF was parsed and none failed
    ensures mode != TxtOnly ==>
      && (requested.Some? <==> parse.value.ok && parse.value.successes > 0)
      && (requested.Some? ==> requested.value == [ParsedDir(txtDir)])
    // the combiner's outcome is the handler's
    ensures requested.None? ==> content == None && fs.tree == scanned
    ensures requested.Some? ==>
      && (forall d | d in requested.value :: scanned.IsDir(d))
      && (!cenv.toolOnPath ==> content == None && fs.tree == scanned)
      && (cenv.toolOnPath ==> (content, fs.tree) == CombineOutcome(scanned, requested.value, out, cenv))
  {
    var parsedDir := ParsedDir(txtDir);
    content, requested := None, None;
    var stepOk, dirs;
    stepOk, dirs, parse, pdfs := ParseStep(fs, mode, pdfDir, parsedDir, penv);
    scanned := fs.tree;

    if stepOk || mode == TxtOnly {
      content, requested := CollectAndCombineAsWritten(fs, mode, dirs, txtDir, out, cenv);
    }
  }

  /** The handler as intended: the same steps with `TxtStep`. `parse` is the
      summary of `parse_pdfs` when it ran, `requested` the folders handed to
      the combiner when it ran, and `scanned` the tree at that moment. */
  method GenerateContext(fs: FileSystem, mode: Mode, pdfDir: Path, txtDir: Path, out: Path,
                         penv: ParseEnv, cenv: CombineEnv)
    returns (content: Option<string>, ghost parse: Option<ParseSummary>, ghost pdfs: seq<Path>,
             ghost requested: Option<seq<Path>>, ghost scanned: Tree)
    requires fs.Valid()
    modifies fs
    ensures fs.Valid()
    // the PDF step runs exactly when the content includes PDFs
    ensures parse.Some? <==> mode != TxtOnly
    // with PDFs included, the summary and the scanned tree are those `parse_pdfs` gives on the old tree
    ensures mode != TxtOnly ==>
      ParsePdfsSpec(old(fs.tree), scanned, pdfDir, ParsedDir(txtDir), penv, parse.value, pdfs)
    // TXT only: the TXT folder alone, when it is a directory
    ensures mode == TxtOnly ==>
      && scanned == old(fs.tree)
      && (requested.Some? <==> old(fs.tree).IsDir(txtDir))
      && (requested.Some? ==> requested.value == [txtDir])
    // PDF only: the parsed folder alone, when at least one PDF was parsed and none failed
    ensures mode == PdfOnly ==>
      && (requested.Some? <==> parse.value.ok && parse.value.successes > 0)
      && (requested.Some? ==> requested.value == [ParsedDir(txtDir)])
    // Both: the TXT folder (holding the parsed folder), when parsing did not fail
    ensures mode == Both ==>
      && (requested.Some? <==> parse.value.ok)
      && (requested.Some? ==> requested.value == [txtDir])
    // the combiner's outcome is the handler's
    ensures requested.None? ==> content == None && fs.tree == scanned
    ensures requested.Some? ==>
      && (forall d | d in requested.value :: scanned.IsDir(d))
      && (!cenv.toolOnPath ==> content == None && fs.tree == scanned)
      && (cenv.toolOnPath ==> (content, fs.tree) == CombineOutcome(scanned, requested.value, out, cenv))
  {
    var parsedDir := ParsedDir(txtDir);
    content, requested := None, None;
    var stepOk, dirs;
    stepOk, dirs, parse, pdfs := ParseStep(fs, mode, pdfDir, parsedDir, penv);
    scanned := fs.tree;

    if stepOk || mode == TxtOnly {
      content, requested := CollectAndCombine(fs, mode, dirs, txtDir, out, cenv);
    }
  }
}
