/** The command-line parser of the edit mode (`--edit-mode`). */
module Cli {
  import opened Wrappers
  import TextEditor

  const EditModeError: string := "edit-mode must be 'insert' or 'overwrite'"

  /** The value `--edit-mode` takes when it is not given. */
  const DefaultEditMode: string := "insert"

  /** "insert" and the empty string mean Insert, "overwrite" means Overwrite, and
      every other spelling, differently cased ones included, is an error. */
  function EditModeValidator(val: string): (r: Result<TextEditor.Mode, string>)
    ensures r == Ok(TextEditor.Mode.Insert) <==> val == "insert" || val == ""
    ensures r == Ok(TextEditor.Mode.Overwrite) <==> val == "overwrite"
    ensures r.Err? <==> val !in {"insert", "", "overwrite"}
    ensures r.Err? ==> r.error == EditModeError
  {
    if val == "insert" || val == "" then Ok(TextEditor.Mode.Insert)
    else if val == "overwrite" then Ok(TextEditor.Mode.Overwrite)
    else Err("edit-mode must be 'insert' or 'overwrite'")
  }

  /** How the command line spells a mode. */
  function EditModeName(m: TextEditor.Mode): string
  {
    match m
    case Insert => "insert"
    case Overwrite => "overwrite"
  }

  /** Every mode can be selected by its name. */
  lemma EditModeNameRoundTrip(m: TextEditor.Mode)
    ensures EditModeValidator(EditModeName(m)) == Ok(m)
  {
  }

  /** The declared default parses, to Insert. */
  lemma DefaultEditModeParses()
    ensures EditModeValidator(DefaultEditMode) == Ok(TextEditor.Mode.Insert)
  {
  }

  /** Matching is exact: capitalised spellings are refused. */
  lemma EditModeIsCaseSensitive()
    ensures EditModeValidator("Insert") == Err(EditModeError)
    ensures EditModeValidator("OVERWRITE") == Err(EditModeError)
  {
  }
}
