/** The "Generate Context File" handler of `context-generator-app.py`: it
    combines exactly one folder. PDF only targets the parsed folder, Both and
    TXT only target the TXT folder, which the recursive combiner scans with
    the parsed folder inside it; TXT only first empties the parsed folder with
    `clear_directory` so that no parsed Markdown is included. */
module SingleTargetApp {
  import opened Options
  import opened FsModel
  import opened Config
  import opened PdfParsing
  import opened Combining

  /** `clear_directory(dir_path_str)`: remove the folder when it exists and
      create it again (or just create it when it does not exist); any `OSError`
      makes the result `false`. */
  method ClearDirectory(fs: FileSystem, dir: Path, faults: DirFaults) returns (cleared: bool)
    requires fs.Valid()
    modifies fs
    ensures fs.Valid()
    ensures cleared == Reset(old(fs.tree), dir, faults).0
    ensures fs.tree == Reset(old(fs.tree), dir, faults).1
    ensures cleared ==> fs.tree.IsEmptyDir(dir)
  {
    ResetOutcome(fs.tree, dir, faults);
    if fs.tree.Exists(dir) {
      cleared := fs.RemoveTree(dir, faults.removeDenied);
      if cleared {
        cleared := fs.MakeDirs(dir, faults.createDenied);
      }
    } else {
      cleared := fs.MakeDirs(dir, faults.createDenied);
    }
  }

  /** `clear_directory` can report failure on a folder that is already an
      empty directory: when the removal is refused it returns `false` and the
      folder stays as it was, empty. */
  lemma ClearingMayFailOnEmptyDir()
    ensures var t := Tree({[], ["parsed"]}, {});
      && t.Valid() && t.IsEmptyDir(["parsed"])
      && Reset(t, ["parsed"], DirFaults(true, false)) == (false, t)
  {
  }

  /** The inputs the handler takes from outside: those of `parse_pdfs`, the
      faults met by `clear_directory`, those of the combiner, and the
      truthiness of `st.warning(...)` in the combiner's filter. */
  datatype World = World(parse: ParseEnv, clear: DirFaults, combine: CombineEnv, warningTruthy: bool)

  /** The handler. `parse` is the summary of `parse_pdfs` when it ran,
      `target` the one folder handed to the combiner when it ran, and
      `scanned` the tree at that moment. */
  method GenerateContext(fs: FileSystem, mode: Mode, pdfDir: Path, txtDir: Path, out: Path, world: World)
    returns (content: Option<string>, ghost parse: Option<ParseSummary>, ghost pdfs: seq<Path>,
             ghost target: Option<Path>, ghost scanned: Tree)
    requires fs.Valid()
    modifies fs
    ensures fs.Valid()
    ensures parse.Some? <==> mode != TxtOnly
    // with PDFs included, the summary and the scanned tree are those `parse_pdfs` gives on the old tree
    ensures mode != TxtOnly ==>
      ParsePdfsSpec(old(fs.tree), scanned, pdfDir, ParsedDir(txtDir), world.parse, parse.value, pdfs)
    // PDF only: the parsed folder, when parsing did not fail and parsed at least one PDF
    ensures mode == PdfOnly ==>
      && (target.Some? <==> parse.value.ok && parse.value.successes > 0)
      && (target.Some? ==> target.value == ParsedDir(txtDir))
    // Both: the TXT folder whenever it is a directory after parsing, even if parsing failed
    ensures mode == Both ==>
      && (target.Some? <==> scanned.IsDir(txtDir))
      && (target.Some? ==> target.value == txtDir)
    // TXT only: the TXT folder, once the parsed folder inside it has been emptied
    ensures mode == TxtOnly ==>
      && (target.Some? <==> old(fs.tree).IsDir(txtDir) && Reset(old(fs.tree), ParsedDir(txtDir), world.clear).0)
      && (target.Some? ==>
            && target.value == txtDir
            && scanned == Reset(old(fs.tree), ParsedDir(txtDir), world.clear).1
            && scanned.IsEmptyDir(ParsedDir(txtDir)))
    ensures mode == TxtOnly ==>
      scanned == if old(fs.tree).IsDir(txtDir) then Reset(old(fs.tree), ParsedDir(txtDir), world.clear).1
                 else old(fs.tree)
    // one folder, a directory, and the combiner's outcome is the handler's
    ensures target.None? ==> content == None && fs.tree == scanned
    ensures target.Some? ==>
      && scanned.IsDir(target.value)
      && (!world.combine.toolOnPath ==> content == None && fs.tree == scanned)
      && (world.combine.toolOnPath ==> (content, fs.tree) == CombineOutcome(scanned, [target.value], out, world.combine))
  {
    var parsedDir := ParsedDir(txtDir);
    var stepOk := true;
    var successes := 0;
    content, parse, target, pdfs := None, None, None, [];
    ghost var t0 := fs.tree;

    // Step 1: parsing
    if mode == PdfOnly || mode == Both {
      var summary;
      summary, pdfs := ParsePdfs(fs, pdfDir, parsedDir, world.parse);
      parse := Some(summary);
      successes := summary.successes;
      if !summary.ok {
        if mode == PdfOnly {
          // `st.stop()` ends the script run here
          scanned := fs.tree;
          return content, parse, pdfs, target, scanned;
        }
      } else if summary.successes == 0 && mode == PdfOnly {
        stepOk := false;
      }
    }
    scanned := fs.tree;

    // Step 2: the one target folder
    if stepOk {
      var targetDir: Option<Path> := None;
      if mode == Both {
        if fs.tree.IsDir(txtDir) {
          targetDir := Some(txtDir);
        } else {
          stepOk := false;
        }
      } else if mode == PdfOnly {
        if successes > 0 && fs.tree.IsDir(parsedDir) {
          targetDir := Some(parsedDir);
        } else {
          stepOk := false;
        }
      } else {
        if fs.tree.IsDir(txtDir) {
          var cleared := ClearDirectory(fs, parsedDir, world.clear);
          scanned := fs.tree;
          if cleared {
            targetDir := Some(txtDir);
          } else {
            stepOk := false;
          }
        } else {
          stepOk := false;
        }
      }

      // Step 3: combining the one folder
      if stepOk && targetDir.Some? {
        target := targetDir;
        AppDirectoriesFilter(fs.tree, [targetDir.value], world.warningTruthy);
        var ok, combined, valid := CombineFilesApp(fs, [targetDir.value], out, world.combine, world.warningTruthy);
        if ok {
          content := combined;
        }
      }
    }
  }
}
