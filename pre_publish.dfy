/** The gate the publisher asks before it opens: "save before publish". */
module PrePublish {
  import opened Wrappers
  import opened Toolkit

  /** A host call that returned a value or raised AttributeError with a message. */
  datatype Attempt<T> = Returned(value: T) | AttributeError(message: string)

  /** A dialog the gate opens, in the order opened. */
  datatype Effect = AskSaveWork | ShowSaveDialog | ErrorBox(text: string)

  /** The session path was read and is empty. */
  predicate Unsaved(currentPath: Attempt<string>) {
    currentPath.Returned? && currentPath.value == ""
  }

  /**
   * The message of the first AttributeError raised on the path the gate takes:
   * reading the path, or, after a Yes, the save dialog or reading the path again.
   */
  function RaisedMessage(currentPath: Attempt<string>, answer: Answer, saveDialog: Attempt<()>,
                         pathAfterSave: Attempt<string>): (r: Option<string>)
    ensures currentPath.AttributeError? ==> r == Some(currentPath.message)
    ensures r.Some? ==> currentPath.AttributeError? || (Unsaved(currentPath) && answer == Yes)
    ensures Unsaved(currentPath) && answer == Yes ==>
      r == (if saveDialog.AttributeError? then Some(saveDialog.message)
            else if pathAfterSave.AttributeError? then Some(pathAfterSave.message)
            else None)
  {
    if currentPath.AttributeError? then Some(currentPath.message)
    else if !Unsaved(currentPath) || answer != Yes then None
    else if saveDialog.AttributeError? then Some(saveDialog.message)
    else if pathAfterSave.AttributeError? then Some(pathAfterSave.message)
    else None
  }

  /**
   * `validate`. `requireSave` is the "require_save_before_publish" setting,
   * `currentPath` the host's path, `answer` the user's answer to the save
   * question, `saveDialog` the save dialog, `pathAfterSave` the path read again.
   */
  method Validate(requireSave: bool, currentPath: Attempt<string>, answer: Answer,
                  saveDialog: Attempt<()>, pathAfterSave: Attempt<string>)
    returns (result: bool, effects: seq<Effect>)
    ensures !requireSave ==> result && effects == []
    ensures requireSave && currentPath.Returned? && currentPath.value != "" ==> result && effects == []
    ensures requireSave && Unsaved(currentPath) && answer != Yes ==> !result && effects == [AskSaveWork]
    ensures (requireSave && Unsaved(currentPath) && answer == Yes
             && RaisedMessage(currentPath, answer, saveDialog, pathAfterSave).None?) ==>
      result == (pathAfterSave.value != "") && effects == [AskSaveWork, ShowSaveDialog]
    ensures requireSave && RaisedMessage(currentPath, answer, saveDialog, pathAfterSave).Some? ==>
      && !result
      && |effects| >= 1
      && effects[|effects| - 1]
         == ErrorBox("Error: '" + RaisedMessage(currentPath, answer, saveDialog, pathAfterSave).value + "'")
    ensures requireSave && currentPath.AttributeError? ==>
      effects == [ErrorBox("Error: '" + currentPath.message + "'")]
    ensures (requireSave && Unsaved(currentPath) && answer == Yes
             && RaisedMessage(currentPath, answer, saveDialog, pathAfterSave).Some?) ==>
      effects == [AskSaveWork, ShowSaveDialog,
                  ErrorBox("Error: '" + RaisedMessage(currentPath, answer, saveDialog, pathAfterSave).value + "'")]
    ensures result ==>
      || !requireSave
      || (currentPath.Returned? && currentPath.value != "")
      || (answer == Yes && pathAfterSave.Returned? && pathAfterSave.value != "")
  {
    result := true;
    effects := [];
    if requireSave {
      var error: Option<string> := None;
      if currentPath.AttributeError? {
        error := Some(currentPath.message);
      } else {
        var path := currentPath.value;
        if path == "" {
          effects := effects + [AskSaveWork];
          if answer == Yes {
            effects := effects + [ShowSaveDialog];
            if saveDialog.AttributeError? {
              error := Some(saveDialog.message);
            } else {
              if pathAfterSave.AttributeError? {
                error := Some(pathAfterSave.message);
              } else {
                path := pathAfterSave.value;
              }
            }
          }
          if error.None? {
            result := path != "";
          }
        }
      }
      if error.Some? {
        effects := effects + [ErrorBox("Error: '" + error.value + "'")];
        result := false;
      }
    }
  }
}
