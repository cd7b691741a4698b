/** Values exchanged with the pipeline framework and the host's Qt dialogs. */
module Toolkit {
  import opened Wrappers

  /**
   * The dictionary a publish plugin's `accept` returns. Only `accepted` is
   * required; an optional key the plugin leaves out of the dictionary is None.
   */
  datatype Acceptance = Acceptance(
    accepted: bool,
    checked: Option<bool>,
    visible: Option<bool>,
    disabled: Option<bool>)

  /** The standard button a `QMessageBox.question` returned. */
  datatype Answer = Yes | No | Cancel | OtherButton

  /** The item type every SketchBook publish plugin filters on. */
  const SessionItemType := "sketchbook.session"
}
