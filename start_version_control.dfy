/**
 * The "Begin file versioning" publish plugin: offered only for a session whose
 * path carries no version number yet, it saves the session under its "v001" path.
 */
module StartVersionControl {
  import opened Wrappers
  import opened Toolkit

  /**
   * What the item's "work_template" property answers for the session path:
   * whether `validate(path)` holds, and the fields `get_fields(path)` returns
   * (a field whose value is Python's None is None here).
   */
  datatype WorkTemplate = WorkTemplate(matchesPath: bool, fields: map<string, Option<int>>)

  /** The version number the work template yields for the path, if it yields one. */
  function TemplateVersion(template: Option<WorkTemplate>): (r: Option<int>)
    ensures r.Some? <==>
      && template.Some?
      && template.value.matchesPath
      && "version" in template.value.fields
      && template.value.fields["version"].Some?
    ensures r.Some? ==> r == template.value.fields["version"]
  {
    if template.Some? && template.value.matchesPath && "version" in template.value.fields
    then template.value.fields["version"]
    else None
  }

  /**
   * `_get_version_number`: the work template's "version" field when a template
   * exists and matches the path, otherwise (or when that field is None) the
   * version the framework's path-info lookup reports, `pathInfoVersion`.
   */
  method GetVersionNumber(template: Option<WorkTemplate>, pathInfoVersion: Option<int>) returns (version: Option<int>)
    ensures TemplateVersion(template).Some? ==> version == TemplateVersion(template)
    ensures TemplateVersion(template).None? ==> version == pathInfoVersion
    ensures version.Some? <==> TemplateVersion(template).Some? || pathInfoVersion.Some?
  {
    version := None;
    if template.Some? {
      if template.value.matchesPath {
        var fields := template.value.fields;
        if "version" in fields {
          version := fields["version"];
        }
      }
    }
    if version.None? {
      version := pathInfoVersion;
    }
  }

  /**
   * `accept`: a saved session (non-empty `sessionPath`) whose path already
   * carries a version number is rejected; everything else, an unsaved
   * session included, is accepted unchecked.
   */
  method Accept(sessionPath: string, template: Option<WorkTemplate>, pathInfoVersion: Option<int>)
    returns (a: Acceptance)
    ensures !a.accepted <==> sessionPath != "" && (TemplateVersion(template).Some? || pathInfoVersion.Some?)
    ensures a.accepted ==> a == Acceptance(true, Some(false), None, None)
    ensures !a.accepted ==> a == Acceptance(false, None, None, None)
  {
    var acceptance := Acceptance(true, Some(false), None, None);
    if sessionPath != "" {
      var version := GetVersionNumber(template, pathInfoVersion);
      if version.Some? {
        return Acceptance(false, None, None, None);
      }
    }
    return acceptance;
  }

  const VersionExistsMessage := "A file already exists with a version number. Please choose another name."

  /**
   * `validate`: `versionPath` is the framework's `get_version_path` and
   * `onDisk` is `os.path.exists`. It raises when the "v001" copy of the
   * session path is already on disk, and is True otherwise.
   */
  function Validate(sessionPath: string, versionPath: (string, string) -> string, onDisk: string -> bool)
    : (r: Result<bool, string>)
    ensures r.Failure? <==> onDisk(versionPath(sessionPath, "v001"))
    ensures r.Failure? ==> r.error == VersionExistsMessage
    ensures r.Success? ==> r.value
  {
    if onDisk(versionPath(sessionPath, "v001")) then Failure(VersionExistsMessage) else Success(true)
  }

  /** A call into the host's native API. */
  datatype Effect = SaveFile | SaveFileAs(path: string)

  /**
   * `publish`: save the session as it is, then save it again under the "v001"
   * path of the normalised session path (`normalize` is `ShotgunPath.normalize`).
   */
  method Publish(sessionPath: string, normalize: string -> string, versionPath: (string, string) -> string)
    returns (effects: seq<Effect>)
    ensures |effects| == 2 && effects[0] == SaveFile
    ensures effects[1] == SaveFileAs(versionPath(normalize(sessionPath), "v001"))
  {
    var path := normalize(sessionPath);
    effects := [SaveFile];
    var target := versionPath(path, "v001");
    effects := effects + [SaveFileAs(target)];
  }
}
