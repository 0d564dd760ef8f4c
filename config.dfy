/** What both app files share: the tool names, the fixed name of the parsed-PDF
    subfolder, the three content options of the "Process Files" tab, and the
    outcomes of running an external tool or reading a file back. */
module Config {
  import opened FsModel

  const LLAMA_PARSE_COMMAND := "llama-parse"
  const FILES_TO_PROMPT_COMMAND := "files-to-prompt"
  const DEFAULT_PARSED_PDF_OUTPUT_SUBDIR := "parsed_pdfs_streamlit"

  /** The radio choice: "TXT files only", "PDF files only", "Both PDF and TXT files". */
  datatype Mode = TxtOnly | PdfOnly | Both

  /** How one `subprocess.run` of an external tool ended: it exited with a code,
      it exceeded the 300-second timeout and was killed, the executable was not
      found (`FileNotFoundError`), or some other exception was raised (such as a
      failure to decode its captured output). Except when the executable was
      not found, the tool ran and may have written its `-o` output file before
      it ended, however it ended. */
  datatype ToolRun =
    | Exited(code: int, wroteOutput: bool)
    | TimedOut(wroteOutput: bool)
    | NotFound
    | Crashed(wroteOutput: bool)
  {
    /** The run left its output file behind. */
    predicate Wrote() {
      !NotFound? && wroteOutput
    }
  }

  /** Reading a file back as UTF-8 text: its contents, or an `IOError`. */
  datatype ReadOutcome = ReadOk(text: string) | ReadFailed

  /** `os.path.join(txt_dir, DEFAULT_PARSED_PDF_OUTPUT_SUBDIR)`: the parsed-PDF
      folder always sits directly inside the TXT folder, so it is never the TXT
      folder itself and `relative_to` from it to the TXT folder always succeeds. */
  function ParsedDir(txtDir: Path): (r: Path)
    ensures RelativeTo(r, txtDir) && r != txtDir
    ensures Parent(r) == txtDir
  {
    Join(txtDir, DEFAULT_PARSED_PDF_OUTPUT_SUBDIR)
  }
}
