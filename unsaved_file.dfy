/**
 * The "Unsaved file" publish plugin: it shows itself, disabled, only while the
 * session has never been saved, telling the user to save first.
 */
module UnsavedFile {
  import opened Wrappers
  import opened Toolkit

  /** `accept` on the item's "path" property (None when the property holds None). */
  function Accept(path: Option<string>): (a: Acceptance)
    ensures a.accepted <==> path.None? || path.value == ""
    ensures a.accepted ==> a.checked == Some(false) && a.disabled == Some(true) && a.visible.None?
    ensures !a.accepted ==> a.visible == Some(false) && a.checked.None? && a.disabled.None?
  {
    if path.None? || path.value == "" then Acceptance(true, Some(false), None, Some(true))
    else Acceptance(false, None, Some(false), None)
  }

  /** The plugin declares no settings. */
  function Settings(): (s: map<string, string>)
    ensures |s| == 0
  {
    map[]
  }

  function ItemFilters(): (r: seq<string>)
    ensures r == [SessionItemType]
  {
    ["sketchbook.session"]
  }

  /** `validate`, `publish` and `finalize` never stop the publish. */
  function Validate(): (ok: bool)
    ensures ok
  {
    true
  }

  function Publish(): (ok: bool)
    ensures ok
  {
    true
  }

  function Finalize(): (ok: bool)
    ensures ok
  {
    true
  }
}
