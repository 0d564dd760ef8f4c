# llm-context-gen: a Dafny model of the context generator's processing core

llm-context-gen is a pair of Streamlit apps that build one LLM "context file"
from a folder of PDFs and a folder of text files. First `llama-parse` turns
each PDF into Markdown. Then `files-to-prompt` concatenates the folders into
one XML-tagged file. A third module asks a Gemini model to suggest an expert
system prompt for that context.

This project models the decision logic beneath the UI and proves properties
of it:

- **`parse_pdfs`** (the same in both apps) — `PdfParsing`. It checks its
  guards, then empties the output folder. Next it walks the sorted `*.pdf`
  listing and counts each file as a success or a failure. It stops at once
  when the executable disappears, and derives the overall flag from the
  counters. The loop (`ParseEach`) is proved against `Run`, a fold over the
  listing, and the promises of the source are proved about `Run`.
- **`list_files(dir, "*.pdf")`** — `PdfParsing.ListPdfs`, with Python's
  `sorted()` order on paths in `PathOrder`.
- **`combine_files_via_cli`** (both apps) — `Combining`. It keeps the
  requested folders that are directories and makes the output file's folder.
  Then it runs the tool, checks the output file and reads it back.
- **The "Generate Context File" handlers.** `UploaderApp` is the uploader's
  multi-folder list. `SingleTargetApp` is the one-folder variant of
  `context-generator-app.py`, with `clear_directory`.
- **`generate_expert_system_prompt`** — `PersonaSuggestion`. It covers the
  input guards, the snippet, the meta-prompt, and the classification of the
  response or exception.

The file system is a value `Tree(dirs, files)`. Each path is the sequence of
its components, already absolute and normalised. So `/` is appending a
component and `relative_to` is a prefix test. `FsModel.FileSystem` is the
one mutable object. Its methods are the operating-system calls the apps make:
`shutil.rmtree`, `mkdir(parents=True, exist_ok=True)`, and a tool writing its
output file.

The outside world enters as inputs:

- Whether `shutil.which` finds a tool, and whether the LlamaParse credential
  file exists.
- Which directory operations the system refuses (`DirFaults`).
- Whether listing the PDFs raises, which `list_files` turns into an empty
  listing.
- How each `subprocess.run` ends (`ToolRun`: an exit code, a timeout,
  `FileNotFoundError` or any other exception), and whether the run left its
  output file behind; a killed or crashed tool may have written it.
- What reading the output file gives.
- What the Gemini SDK answers or raises.
- The truthiness of `st.warning(...)`, which the comprehension at
  `context-generator-app.py:153` depends on.

## Model

| member | source | states |
|---|---|---|
| FsModel.Join | context-generator-app-uploader.py:155-158 | `dir / name` has `dir` as parent and `name` as name, and lies strictly beneath `dir` (`relative_to` succeeds) |
| FsModel.ResetOutcome | context-generator-app-uploader.py:129-135 | emptying a folder (`rmtree` if it exists, then `mkdir`) succeeds exactly when the path is not a file, the removal and the creation are not refused and no ancestor is a file; on success the folder is an empty directory; the tree stays well formed |
| FsModel.ResetKeepsOutside | context-generator-app-uploader.py:129-135 | emptying a folder leaves files outside it unchanged, keeps every directory outside it, and creates no directory except the folder and its ancestors |
| FsModel.Reset | context-generator-app-uploader.py:129-135 | a successful emptying leaves the folder a directory; a failed one leaves the tree unchanged or with the folder removed; a path that is a file, or a refused removal, fails and changes nothing |
| FsModel.RemovedValid | context-generator-app-uploader.py:131 | removing a subtree keeps the tree well formed |
| FsModel.WithDirsValid | context-generator-app-uploader.py:132 | a successful `mkdir(parents=True)` keeps the tree well formed and makes the path a directory |
| FsModel.FileSystem.RemoveTree | context-generator-app-uploader.py:131 | `shutil.rmtree` succeeds exactly on a directory when not refused, and then removes it and everything beneath it; otherwise nothing changes |
| FsModel.FileSystem.MakeDirs | context-generator-app-uploader.py:132 | `mkdir(parents=True, exist_ok=True)` succeeds when the path is already a directory, or when creation is allowed and no ancestor is a file; it then adds the path and its ancestors |
| FsModel.FileSystem.ToolWrites | context-generator-app-uploader.py:171 | a tool's output file appears only where a regular file can be created |
| Config.ParsedDir | context-generator-app-uploader.py:374 | the parsed-PDF folder sits directly inside the TXT folder, is never the TXT folder, and `relative_to` from it to the TXT folder succeeds |
| PathOrder.StrLessTotal | context-generator-app-uploader.py:51 | string comparison orders any two different strings |
| PathOrder.StrLessTransitive | context-generator-app-uploader.py:51 | string comparison is transitive |
| PathOrder.PathLessIrreflexive | context-generator-app-uploader.py:51 | no path sorts before itself |
| PathOrder.PathLessTransitive | context-generator-app-uploader.py:51 | path comparison is transitive |
| PathOrder.PathLessTotal | context-generator-app-uploader.py:51 | path comparison orders any two different paths, so `sorted()` has one answer |
| PathOrder.LeastExists | context-generator-app-uploader.py:51 | every non-empty set of paths has a first element |
| PathOrder.Sorted | context-generator-app-uploader.py:51 | `sorted()` of a set of paths lists each path exactly once, in strictly ascending order |
| PdfParsing.LastIndexOf | context-generator-app-uploader.py:155 | the index of the last occurrence of a character, or -1 when there is none (the rule behind `stem`) |
| PdfParsing.Stem | context-generator-app-uploader.py:155 | the stem is a prefix of the name; it is shorter exactly when the last dot is neither the first nor the last character, and then it ends right before that dot |
| PdfParsing.StemOfPdfName | context-generator-app-uploader.py:155-156 | the stem of `<s>.pdf` is `<s>` for every non-empty `s` |
| PdfParsing.OutputFor | context-generator-app-uploader.py:155-158 | the output file `<stem>.md` lies directly inside the output folder |
| PdfParsing.ParseCommand | context-generator-app-uploader.py:163 | the parser is called as `llama-parse parse <pdf> -o <stem>.md --format markdown`, with the PDF and the output path as they are |
| PdfParsing.SameOutputSamePdf | context-generator-app-uploader.py:155-158 | two PDFs of one folder, other than a file named `.pdf`, that get the same `<stem>.md` are the same PDF |
| PdfParsing.OutputsDistinct | context-generator-app-uploader.py:155-158 | the PDFs of one listing, when none is a file named `.pdf`, have pairwise different output files |
| PdfParsing.PdfFiles | context-generator-app-uploader.py:42-54 | the PDFs of a folder are exactly its regular files directly inside it whose names match `*.pdf`, and none when it is not a directory |
| PdfParsing.ListPdfs | context-generator-app-uploader.py:42-54 | `list_files(dir, "*.pdf")` lists every regular `*.pdf` file directly in the folder exactly once, in `sorted()` order, nothing when the folder is not a directory, and nothing when the glob raises |
| PdfParsing.Step | context-generator-app-uploader.py:162-194 | one iteration: a `FileNotFoundError` cuts the loop short and leaves both counters unchanged; any other ending adds exactly one to one counter, and a success only on exit code 0 with the output file present; the output file is recorded exactly when the run (exit, timeout or crash) left it behind |
| PdfParsing.Run | context-generator-app-uploader.py:152-194 | over the loop the counters never go down and recorded files stay recorded |
| PdfParsing.Completed | context-generator-app-uploader.py:186-188 | the number of PDFs processed is at most the listing's length, and when it is shorter the next run found no executable |
| PdfParsing.CompletedIsFirstNotFound | context-generator-app-uploader.py:186-188 | every PDF before that point had its executable found |
| PdfParsing.RunAbortsIffIncomplete | context-generator-app-uploader.py:186-188 | the loop is cut short exactly when some run raises `FileNotFoundError` |
| PdfParsing.RunAbortKeepsPrefix | context-generator-app-uploader.py:186-188 | a loop cut short returns exactly the counters and files of the PDFs before the one whose run found no executable, with the abort flag set |
| PdfParsing.RunCountsEveryFile | context-generator-app-uploader.py:152-194 | each processed PDF adds exactly one to exactly one of the two counters: `successes + failures` equals the number processed |
| PdfParsing.Verdict | context-generator-app-uploader.py:198-209 | the flag is true exactly when the loop was not cut short and nothing failed; the counters are returned as they are |
| PdfParsing.ParseVerdict | context-generator-app-uploader.py:198-209 | the overall flag is true exactly when the loop got through every PDF and none failed; after a full loop the counters add up to the number of PDFs, so with PDFs present they are never both zero |
| PdfParsing.RunSuccessIsCleanExit | context-generator-app-uploader.py:171-182 | after a full loop over PDFs with distinct outputs, the successes are exactly the runs that exited with 0 and wrote `<stem>.md`, and the files written are exactly those left by the runs that wrote one, whether they exited, timed out or crashed |
| PdfParsing.StepOfCompleted | context-generator-app-uploader.py:173-194 | one run that finds the executable, on an output not yet written, keeps the loop going and counts a success exactly on exit code 0 with its output written |
| PdfParsing.RunWritesOnlyOutputs | context-generator-app-uploader.py:152-194 | the loop writes no file other than the `<stem>.md` files of its PDFs |
| PdfParsing.PrepareOutputDir | context-generator-app-uploader.py:126-135 | emptying the output folder gives the result and tree of `Reset` |
| PdfParsing.WriteInside | context-generator-app-uploader.py:157-174 | inside the emptied output folder, a tool can create each `<stem>.md`, and the file exists exactly when it was written |
| PdfParsing.RecordOutcome | context-generator-app-uploader.py:171-194 | a run that found the executable updates the counters and the written files as one step of `Run` |
| PdfParsing.ParseOne | context-generator-app-uploader.py:153-194 | one iteration is one step of `Run`: a `FileNotFoundError` changes nothing and cuts the loop short |
| PdfParsing.ParseEach | context-generator-app-uploader.py:152-194 | the loop returns the counters and the abort flag of `Run`, and writes exactly the files of `Run` into the emptied folder |
| PdfParsing.ParsePdfs | context-generator-app-uploader.py:114-209 | a missing tool, credential file or input folder gives `(False, 0, 0)` and changes nothing; a folder that cannot be emptied gives `(False, 0, 0)` with the tree `Reset` leaves; a listing that raises gives `(True, 0, 0)` after emptying; otherwise the listing is the PDFs of the emptied folder in ascending order, the result is the verdict of `Run` over it, `(True, 0, 0)` for no PDFs, only `<stem>.md` files are written, and the output folder is a directory |
| Combining.Directories | context-generator-app-uploader.py:218-224 | a folder is kept exactly when it was requested and is a directory, and the kept list is no longer than the request |
| Combining.DirectoriesKeepOrder | context-generator-app-uploader.py:218-224 | filtering a concatenation filters each part, so the kept folders stay in request order |
| Combining.DirectoriesOfDirectories | context-generator-app-uploader.py:218-224 | when every requested folder is a directory, all are kept |
| Combining.ValidDirectories | context-generator-app-uploader.py:218-224 | the appending loop builds exactly the directory filter of the request |
| Combining.AppDirectories | context-generator-app.py:153 | the comprehension keeps only requested folders, never more than were requested, and every requested directory |
| Combining.AppDirectoriesFilter | context-generator-app.py:153 | the comprehension is the directory filter when `st.warning(...)` is falsy and keeps every requested folder when it is truthy; both keep every folder of an all-directory request |
| Combining.EscapeQuotes | context-generator-app-uploader.py:241-242 | escaping never shortens a string and leaves one without single quotes unchanged |
| Combining.Quote | context-generator-app-uploader.py:241-242 | `shlex.quote` never gives the empty string, and gives either the string itself or one wrapped in single quotes |
| Combining.QuoteChanges | context-generator-app-uploader.py:241-242 | `shlex.quote` leaves a string unchanged exactly when it is non-empty and made of safe characters |
| Combining.QuoteAllUnchanged | context-generator-app-uploader.py:242 | quoting a list changes nothing exactly when every element is non-empty and safe |
| Combining.Command | context-generator-app-uploader.py:239-242 | the vector the tool needs: the command, one element per folder, then `--cxml -o` and the output path as it is |
| Combining.QuotedCommand | context-generator-app-uploader.py:239-242 | the vector as written: the same shape, with the output path passed through `shlex.quote` |
| Combining.QuotingHarmlessIffSafe | context-generator-app-uploader.py:239-242 | the quoted argument vector equals the unquoted one exactly when every path in it is made of safe characters |
| Combining.QuotedCommandWrapsSpacedPath | context-generator-app-uploader.py:239-242 | a folder path with a space (and no quote) reaches the tool as that path wrapped in single quotes, so the quoted vector differs from the unquoted one |
| Combining.QuotedCommandMangledExample | context-generator-app-uploader.py:239-242 | for the folder `/home/u/my docs` the quoted vector differs from the unquoted one |
| Combining.CombineOutcome | context-generator-app-uploader.py:230-278 | content comes back only when the tool exited with 0, the output is a regular file and reading it worked, and it is what was read; a refused output folder changes nothing |
| Combining.CombineOutcomeSpec | context-generator-app-uploader.py:230-278 | content comes back exactly when the output file's folder could be made, the tool exited with 0, the output is a regular file afterwards and reading it works; the content is what was read; nothing is removed, and only the output file and its folders are added |
| Combining.RunCombiner | context-generator-app-uploader.py:230-278 | the steps after the filter give the result and tree of `CombineOutcome`, and succeed exactly when content comes back |
| Combining.CombineFiles | context-generator-app-uploader.py:212-278 | a missing tool, an empty request or no directory among it gives `(False, None)` and changes nothing; otherwise the outcome is `CombineOutcome` of the directory filter |
| Combining.CombineFilesApp | context-generator-app.py:147-176 | the same, with the comprehension of line 153 as the filter |
| UploaderApp.TxtFolderNeverCollected | context-generator-app-uploader.py:432-444 | as written, with the parsed folder inside the TXT folder, the TXT step never adds the TXT folder |
| UploaderApp.TxtStepAsWritten | context-generator-app-uploader.py:432-448 | as written, the TXT step adds the TXT folder exactly when it is not yet collected and `relative_to` fails, and otherwise leaves the list as it is |
| UploaderApp.OutsideOf | context-generator-app-uploader.py:443-447 | a collected folder is kept exactly when it does not lie at or beneath the TXT folder |
| UploaderApp.TxtStep | context-generator-app-uploader.py:430-448 | the intended TXT step: the TXT folder is collected, every folder collected before is kept or lies beneath it, nothing else is added, and nothing beneath it stays |
| UploaderApp.TxtStepAfterParse | context-generator-app-uploader.py:430-448 | after a successful parse the intended step collects the TXT folder alone |
| UploaderApp.PdfFileIsPdfEntry | context-generator-app-uploader.py:399 | when the parser has a PDF to list, `any(glob("*.pdf"))` is true |
| UploaderApp.ParseStep | context-generator-app-uploader.py:391-414 | parsing runs exactly when PDFs are included; the parsed folder is collected exactly when parsing did not fail and parsed a PDF; in Both the step fails exactly when parsing failed; in PDF only it also fails when nothing was parsed although `*.pdf` entries exist; TXT only changes nothing; the summary, the listing and the tree afterwards are what `parse_pdfs` gives on the old tree |
| UploaderApp.CombineStep | context-generator-app-uploader.py:451-463 | the collected folders go to the combiner unless there are none, and its outcome is the step's |
| UploaderApp.CollectAndCombineAsWritten | context-generator-app-uploader.py:418-463 | as written, the TXT step adds nothing, so exactly the folders from the PDF step are combined (none: nothing is combined and nothing changes), and the combiner's outcome is the step's |
| UploaderApp.CollectAndCombine | context-generator-app-uploader.py:418-463 | with the intended TXT step, `[txt]` is combined whenever the TXT folder is a directory outside PDF-only mode, otherwise the folders from the PDF step; every combined folder is a directory, and the combiner's outcome is the step's |
| UploaderApp.GenerateContextAsWritten | context-generator-app-uploader.py:386-464 | the handler as written: TXT only combines nothing and changes nothing; PDF only and Both combine the parsed folder alone, exactly when parsing did not fail and parsed at least one PDF, so the TXT folder's own files are never combined; with PDFs included, the summary and the tree the combiner sees are what `parse_pdfs` gives on the old tree, and TXT only scans the old tree |
| UploaderApp.GenerateContext | context-generator-app-uploader.py:386-464 | the handler with the intended TXT step: parsing runs exactly when PDFs are included; TXT only combines `[txt]` exactly when it is a directory; PDF only combines the parsed folder exactly when parsing did not fail and parsed at least one PDF; Both combines `[txt]` exactly when parsing did not fail; the combiner's outcome is the handler's; with PDFs included, the summary and the tree the combiner sees are what `parse_pdfs` gives on the old tree |
| SingleTargetApp.ClearDirectory | context-generator-app.py:80-101 | `clear_directory` gives the result and tree of `Reset`, and a `True` result leaves an empty directory |
| SingleTargetApp.ClearingMayFailOnEmptyDir | context-generator-app.py:84-92 | a refused removal makes `clear_directory` return `False` on a folder that is already an empty directory |
| SingleTargetApp.GenerateContext | context-generator-app.py:231-297 | parsing runs exactly when PDFs are included; PDF only targets the parsed folder exactly when parsing did not fail and parsed at least one PDF; Both targets the TXT folder exactly when it is a directory, even after a failed parse; TXT only targets the TXT folder exactly when it is a directory and clearing succeeded, and the parsed folder is then empty when scanned; in TXT only the scanned tree is what clearing the parsed folder left when the TXT folder is a directory, and the tree unchanged otherwise; when nothing is combined the tree stays as scanned; exactly one directory is combined, and the combiner's outcome is the handler's; with PDFs included, the summary and the tree the combiner sees are what `parse_pdfs` gives on the old tree |
| PersonaSuggestion.TrimStart | gemini_interface.py:56 | `lstrip` drops exactly the leading whitespace |
| PersonaSuggestion.TrimEnd | gemini_interface.py:109 | `rstrip` drops exactly the trailing whitespace |
| PersonaSuggestion.Strip | gemini_interface.py:56 | `strip` keeps the part between the leading and the trailing whitespace, which starts and ends with a non-space; the result is empty exactly when the text is all whitespace |
| PersonaSuggestion.StripIdempotent | gemini_interface.py:109 | stripping twice is stripping once |
| PersonaSuggestion.Snippet | gemini_interface.py:66-69 | the snippet is the stripped context when it fits the limit, and otherwise its first `CONTEXT_SNIPPET_MAX_CHARS` characters followed by the truncation marker |
| PersonaSuggestion.BetweenRoundTrip | gemini_interface.py:82-86 | what lies between a head and a tail put around a text is that text |
| PersonaSuggestion.MetaPrompt | gemini_interface.py:72-86 | the prompt is the instructions, the snippet and the closing line; `MetaPromptHoldsSnippet` recovers the snippet from it |
| PersonaSuggestion.MetaPromptHoldsSnippet | gemini_interface.py:72-86 | the snippet appears verbatim in the meta-prompt between the `-------` delimiters |
| PersonaSuggestion.InterpretResponse | gemini_interface.py:107-128 | exactly one of prompt and error; a prompt exactly when the text exists and is non-empty after stripping, and it is the stripped text; an empty text with a block reason gives the safety-filter message naming it, without one the empty-response message; no text with a block reason gives the blocked message naming it, without one the unexpected-structure message |
| PersonaSuggestion.Lower | gemini_interface.py:133 | lower-casing maps each character and keeps the length |
| PersonaSuggestion.LowerIdempotent | gemini_interface.py:133 | lower-casing twice is lower-casing once |
| PersonaSuggestion.ContainsAt | gemini_interface.py:134-138 | `sub in s` holds exactly when `sub` occurs at some position of `s` |
| PersonaSuggestion.Classify | gemini_interface.py:133-140 | each kind exactly when its test is the first to hold on the lower-cased message: `api key not valid`, then `quota`, then `model` with `not found` or `permission`; otherwise the generic failure |
| PersonaSuggestion.FailureMessage | gemini_interface.py:131-142 | the tests in their order on the lower-cased message: invalid key, quota, model not found or permission, and otherwise `API Error: ` followed by the message itself |
| PersonaSuggestion.ClassifyIgnoresCase | gemini_interface.py:133-142 | messages that differ only in case are classified alike |
| PersonaSuggestion.ClassifyPrecedence | gemini_interface.py:134-140 | an invalid key wins over every other test, and a quota problem over a model problem |
| PersonaSuggestion.GenerateExpertSystemPrompt | gemini_interface.py:53-142 | exactly one of prompt and error; a missing or empty key gives the configuration error before the input is looked at; a blank context gives the input error; then a failed configuration gives `API Config Error: ` with its message; otherwise an answer is interpreted by `InterpretResponse` and an exception gives `FailureMessage` of its message; a prompt is non-empty, already stripped, and the stripped text the model answered to the meta-prompt around the snippet |

## Left out

- The Streamlit UI is not modelled: messages, toasts, tabs, widgets, session state, reruns and the progress bar (float arithmetic).
- `handle_upload`, `delete_file`, the README loading and the tab-3 file lists are not modelled; they are byte I/O with UI messages.
- `Path.resolve()` and `os.path.abspath` are not modelled. Paths are taken as already absolute and normalised, with no symbolic links.
- Empty-string folder settings are not modelled. Their falsy checks (`if not directory`, `if step_ok and target_dir`) need a string that no absolute path has.
- The `subprocess.run` calls, `shutil.which`, the credential-file check and the 300-second timeouts are inputs. Their output and error text, shown only in the UI, is left out.
- A partially completed `shutil.rmtree` is not modelled: a removal either happens completely or is refused.
- The Gemini SDK is not modelled. `genai.configure`, `generate_content`, the temperature, the safety settings and logging are inputs. The module-level import of `GEMINI_API_KEY` is the input `apiKey`.
- PersonaSuggestion.Lower: maps ASCII letters only, because full Unicode case mapping can change a string's length and needs tables this model does not hold.
- PdfParsing.RunSuccessIsCleanExit: assumes no two PDFs share an output file. `OutputsDistinct` proves this for any folder without a file named exactly `.pdf`. Such a file's stem is `.pdf`, so it would share `.pdf.md` with `.pdf.pdf`.
- SingleTargetApp.ClearDirectory: proves only that `True` leaves an empty directory. The converse does not hold: a refused removal returns `False` on a folder that is already empty (`ClearingMayFailOnEmptyDir`).
- UploaderApp.GenerateContext: runs the intended TXT step, not the one written (see Findings); the handler as written is `UploaderApp.GenerateContextAsWritten`. With the TXT step repaired, TXT-only mode scans the whole TXT folder, including any parsed Markdown an earlier run left in `parsed_pdfs_streamlit`, because the uploader never empties that folder outside `parse_pdfs` (unlike `clear_directory` at context-generator-app.py:80-101).
- Combining.CombineFilesApp: the comprehension's `or st.warning(...)` depends on the return value of a library call. That value is an input, so with a truthy value the filter keeps folders that are not directories. Each caller of that file passes one folder it has already checked with `is_dir`.

## Findings

| source | as written | input that shows it | evidently intended | confidence | as-written member | corrected member |
|---|---|---|---|---|---|---|
| context-generator-app-uploader.py:432-448 | `Path(parsed).relative_to(txt)` always succeeds, because the parsed folder is always `txt/parsed_pdfs_streamlit` (line 374), so the TXT folder is never collected: TXT only combines nothing, and Both leaves out the files of the TXT folder | any TXT folder `/data/txt`, mode "TXT files only" | collect the TXT folder, which the recursive combiner scans together with the parsed folder inside it, instead of any collected folder beneath it | not executed | UploaderApp.TxtStepAsWritten, UploaderApp.TxtFolderNeverCollected | UploaderApp.TxtStep |
| context-generator-app-uploader.py:239-242 | `shlex.quote` is applied to each element of an argument list run without a shell (the same at context-generator-app.py lines 158-159), so no shell removes the quotes and the tool receives them as part of the path | folder `/home/u/my docs` is passed as `'/home/u/my docs'`, a path that does not exist | pass each path unchanged, since `subprocess.run` with a list hands every element to the program as is | not executed | Combining.QuotedCommand, Combining.QuotedCommandWrapsSpacedPath, Combining.QuotedCommandMangledExample | Combining.Command |
