/**
 * The "Upload for review" publish plugin: which sessions it accepts (by file
 * extension) and the Version record it creates in Shotgun.
 */
module UploadVersion {
  import opened Wrappers
  import opened PyStrings
  import opened Toolkit

  // ---------------------------------------------------------------------------
  // settings and filters

  datatype SettingValue = TextValue(text: string) | FlagValue(flag: bool)

  /** One entry of the `settings` property: its type, default and description. */
  datatype SettingSpec = SettingSpec(settingType: string, default: SettingValue, description: string)

  /** The settings the plugin declares. */
  function SettingsSchema(): (s: map<string, SettingSpec>)
    ensures s.Keys == {"File Extensions", "Upload", "Link Local File"}
    ensures s["File Extensions"] == SettingSpec("str", TextValue("tif"), "File Extensions of files to include")
    ensures s["Upload"].settingType == "bool" && s["Upload"].default == FlagValue(true)
    ensures s["Link Local File"].settingType == "bool" && s["Link Local File"].default == FlagValue(true)
  {
    map[
      "File Extensions" := SettingSpec("str", TextValue("tif"), "File Extensions of files to include"),
      "Upload" := SettingSpec("bool", FlagValue(true), "Upload content to Shotgun?"),
      "Link Local File" := SettingSpec("bool", FlagValue(true), "Should the local file be referenced by Shotgun")]
  }

  /** The item types the plugin is shown. */
  function ItemFilters(): (r: seq<string>)
    ensures r == [SessionItemType]
  {
    ["sketchbook.session"]
  }

  /** The values of the three settings, as the plugin reads them. */
  datatype Settings = Settings(fileExtensions: string, upload: bool, linkLocalFile: bool)

  /** The settings when every one is left at its declared default. */
  function DefaultSettings(): Settings {
    var schema := SettingsSchema();
    Settings(schema["File Extensions"].default.text, schema["Upload"].default.flag,
      schema["Link Local File"].default.flag)
  }

  // ---------------------------------------------------------------------------
  // accept

  /** `ext.strip().lstrip(".")`: one item of the "File Extensions" setting. */
  function NormalizeExtension(item: string): (r: string)
    ensures r == [] || r[0] != '.'
    ensures r == [] || !IsSpace(r[|r| - 1])
  {
    var stripped := Strip(item);
    var r := LStripChar(stripped, '.');
    assert r == [] || r[|r| - 1] == stripped[|stripped| - 1];
    r
  }

  /** An extension as written in the setting once surrounding spaces and dots are gone. */
  predicate CleanExtension(e: string) {
    e != [] && !IsSpace(e[0]) && e[0] != '.' && !IsSpace(e[|e| - 1]) && ',' !in e
  }

  predicate AllSpace(s: string) {
    forall k :: 0 <= k < |s| ==> IsSpace(s[k])
  }

  predicate AllDots(s: string) {
    forall k :: 0 <= k < |s| ==> s[k] == '.'
  }

  lemma {:induction false} LStripSpacePrefix(pre: string, t: string)
    requires AllSpace(pre) && (t == [] || !IsSpace(t[0]))
    ensures LStripSpace(pre + t) == t
    decreases |pre|
  {
    if pre != [] {
      assert (pre + t)[1..] == pre[1..] + t;
      LStripSpacePrefix(pre[1..], t);
    }
  }

  lemma {:induction false} RStripSpaceSuffix(t: string, post: string)
    requires AllSpace(post) && (t == [] || !IsSpace(t[|t| - 1]))
    ensures RStripSpace(t + post) == t
    decreases |post|
  {
    if post != [] {
      var init := post[..|post| - 1];
      assert (t + post)[..|t + post| - 1] == t + init;
      RStripSpaceSuffix(t, init);
    }
  }

  lemma {:induction false} LStripDotsPrefix(dots: string, t: string)
    requires AllDots(dots) && (t == [] || t[0] != '.')
    ensures LStripChar(dots + t, '.') == t
    decreases |dots|
  {
    if dots != [] {
      assert (dots + t)[1..] == dots[1..] + t;
      LStripDotsPrefix(dots[1..], t);
    }
  }

  /** Spaces around an item and dots before the extension are all removed, and nothing else. */
  lemma NormalizeRemovesDecoration(pre: string, dots: string, ext: string, post: string)
    requires AllSpace(pre) && AllDots(dots) && AllSpace(post) && CleanExtension(ext)
    ensures NormalizeExtension(pre + dots + ext + post) == ext
  {
    var core := dots + ext;
    assert core[0] == (if dots == [] then ext[0] else '.');
    assert core[|core| - 1] == ext[|ext| - 1];
    assert pre + dots + ext + post == pre + (core + post);
    assert (core + post)[0] == core[0];
    LStripSpacePrefix(pre, core + post);
    RStripSpaceSuffix(core, post);
    LStripDotsPrefix(dots, ext);
  }

  function NormalizeAll(items: seq<string>): (r: seq<string>)
    ensures |r| == |items| && forall k :: 0 <= k < |r| ==> r[k] == NormalizeExtension(items[k])
  {
    seq(|items|, k requires 0 <= k < |items| => NormalizeExtension(items[k]))
  }

  /** The valid extensions a "File Extensions" setting value stands for. */
  function ExtensionList(setting: string): (r: seq<string>)
    ensures |r| == |Split(setting, ",")| >= 1
    ensures forall k :: 0 <= k < |r| ==> r[k] == NormalizeExtension(Split(setting, ",")[k])
  {
    NormalizeAll(Split(setting, ","))
  }

  /** Writing clean extensions comma-separated gives back exactly those extensions. */
  lemma ExtensionListRoundTrip(exts: seq<string>)
    requires |exts| >= 1 && forall k :: 0 <= k < |exts| ==> CleanExtension(exts[k])
    ensures ExtensionList(Join(exts, ",")) == exts
  {
    forall k | 0 <= k < |exts| ensures !Contains(exts[k], [',']) {
      CleanIsFixed(exts[k]);
    }
    SplitJoin(exts, ',');
    forall k | 0 <= k < |exts| ensures ExtensionList(Join(exts, ","))[k] == exts[k] {
      CleanIsFixed(exts[k]);
    }
  }

  /** A clean extension holds no comma and is left as it is. */
  lemma CleanIsFixed(e: string)
    requires CleanExtension(e)
    ensures !Contains(e, [',']) && NormalizeExtension(e) == e
  {
    CharNotContained(e, ',');
    NormalizeRemovesDecoration("", "", e, "");
    assert "" + "" + e + "" == e;
  }

  /** The loop of `accept` that collects the valid extensions. */
  method ValidExtensions(setting: string) returns (valid: seq<string>)
    ensures valid == ExtensionList(setting)
  {
    var items := Split(setting, ",");
    valid := [];
    for i := 0 to |items|
      invariant |valid| == i
      invariant forall k :: 0 <= k < i ==> valid[k] == NormalizeExtension(items[k])
    {
      var ext := NormalizeExtension(items[i]);
      valid := valid + [ext];
    }
  }

  /** The session has been saved: `item.properties["path"]` is neither None nor empty. */
  predicate Saved(path: Option<string>) {
    path.Some? && path.value != ""
  }

  /**
   * `accept`. `extension` is the "extension" component the framework's path
   * utility reports for the path.
   */
  method Accept(settings: Settings, path: Option<string>, extension: string) returns (a: Acceptance)
    ensures !Saved(path) ==> a == Acceptance(false, Some(false), None, None)
    ensures Saved(path) ==> a.checked.None? && a.visible.None? && a.disabled.None?
    ensures a.accepted <==> Saved(path) && Lower(extension) in ExtensionList(settings.fileExtensions)
  {
    if path.None? || path.value == "" {
      return Acceptance(false, Some(false), None, None);
    }
    var ext := Lower(extension);
    var valid := ValidExtensions(settings.fileExtensions);
    if ext in valid {
      a := Acceptance(true, None, None, None);
    } else {
      a := Acceptance(false, None, None, None);
    }
  }

  /** With the default settings exactly the ".tif" files, in any letter case, are accepted. */
  lemma DefaultsAcceptTif(extension: string)
    ensures Lower(extension) in ExtensionList(DefaultSettings().fileExtensions) <==> Lower(extension) == "tif"
  {
    var clean := "tif";
    assert CleanExtension(clean);
    ExtensionListRoundTrip([clean]);
    assert Join([clean], ",") == clean;
  }

  // ---------------------------------------------------------------------------
  // publish

  /** A Shotgun entity link. */
  datatype Entity = Entity(entityType: string, id: int)

  /** The parts of the item's context the plugin reads. */
  datatype ItemContext = ItemContext(project: Option<Entity>, entity: Option<Entity>, task: Option<Entity>)

  /** A value of the Version record. */
  datatype Field = TextField(text: string) | LinkField(link: Option<Entity>) | LinksField(links: seq<Entity>)

  /** `_get_version_entity`: the context's entity, else its project, else None. */
  function VersionEntity(context: ItemContext): (r: Option<Entity>)
    ensures context.entity.Some? ==> r == context.entity
    ensures context.entity.None? ==> r == context.project
    ensures r.None? <==> context.entity.None? && context.project.None?
  {
    if context.entity.Some? then context.entity
    else if context.project.Some? then context.project
    else None
  }

  /** The item's "publish_name" property when set and non-empty, else the path's file name. */
  function PublishName(publishNameProperty: Option<string>, fileName: string): (r: string)
    ensures r == fileName || (publishNameProperty.Some? && r == publishNameProperty.value && r != "")
    ensures publishNameProperty.Some? && publishNameProperty.value != "" ==> r == publishNameProperty.value
  {
    if publishNameProperty.Some? && publishNameProperty.value != "" then publishNameProperty.value
    else fileName
  }

  const BaseKeys: set<string> := {"project", "code", "description", "entity", "sg_task"}

  /**
   * `version_data`: the five base keys, "published_files" only when the item
   * carries "sg_publish_data", "sg_path_to_movie" only when "Link Local File" is on.
   */
  function VersionData(context: ItemContext, publishName: string, description: string,
                       publishData: Option<Entity>, linkLocalFile: bool, path: string): (data: map<string, Field>)
    ensures BaseKeys <= data.Keys
    ensures "published_files" in data <==> publishData.Some?
    ensures "sg_path_to_movie" in data <==> linkLocalFile
    ensures data.Keys <= BaseKeys + {"published_files", "sg_path_to_movie"}
    ensures data["project"] == LinkField(context.project) && data["code"] == TextField(publishName)
    ensures data["description"] == TextField(description) && data["sg_task"] == LinkField(context.task)
    ensures data["entity"] == LinkField(VersionEntity(context))
    ensures publishData.Some? ==> data["published_files"] == LinksField([publishData.value])
    ensures linkLocalFile ==> data["sg_path_to_movie"] == TextField(path)
  {
    var base := map[
      "project" := LinkField(context.project),
      "code" := TextField(publishName),
      "description" := TextField(description),
      "entity" := LinkField(VersionEntity(context)),
      "sg_task" := LinkField(context.task)];
    var withFiles := if publishData.Some? then base["published_files" := LinksField([publishData.value])] else base;
    if linkLocalFile then withFiles["sg_path_to_movie" := TextField(path)] else withFiles
  }

  /** The Version record Shotgun created. */
  datatype Version = Version(id: int)

  /** A request to Shotgun, in the order issued. */
  datatype ShotgunCall =
    | CreateVersion(data: map<string, Field>)
    | UploadMovie(versionId: int, path: string)
    | UploadThumbnail(entityType: string, entityId: int, thumbnail: string)

  /** How `publish` ended: normally, or on a local read before any assignment. */
  datatype Status = Completed | UnboundLocal(name: string)

  /**
   * A publish item: the properties the plugin reads, and the two it writes
   * ("sg_version_data" and "upload_path", None until written).
   */
  class PublishItem {
    const path: string
    const publishName: Option<string>
    const publishData: Option<Entity>       // "sg_publish_data", None when absent
    const description: string
    const context: ItemContext
    const thumbnail: string                 // get_thumbnail_as_path(), "" when there is none
    var versionRecord: Option<Version>
    var uploadPath: Option<string>

    constructor (path: string, publishName: Option<string>, publishData: Option<Entity>,
                 description: string, context: ItemContext, thumbnail: string)
      ensures this.path == path && this.publishName == publishName && this.publishData == publishData
      ensures this.description == description && this.context == context && this.thumbnail == thumbnail
      ensures versionRecord.None? && uploadPath.None?
    {
      this.path := path;
      this.publishName := publishName;
      this.publishData := publishData;
      this.description := description;
      this.context := context;
      this.thumbnail := thumbnail;
      versionRecord := None;
      uploadPath := None;
    }
  }

  /**
   * `publish`. `fileName` is the "filename" component of the path, `created`
   * the record Shotgun returns. `upload_path` is bound only when "Upload" is
   * on and `publish_data` only when the item carries "sg_publish_data", so
   * every other run ends on an unbound local.
   */
  method Publish(item: PublishItem, settings: Settings, fileName: string, created: Version)
    returns (calls: seq<ShotgunCall>, status: Status)
    modifies item
    ensures item.versionRecord == Some(created)
    ensures |calls| >= 1 && calls[0] == CreateVersion(VersionData(item.context, PublishName(item.publishName, fileName),
      item.description, item.publishData, settings.linkLocalFile, item.path))
    ensures UploadMovie(created.id, item.path) in calls <==> settings.upload
    ensures status == Completed <==> settings.upload && item.publishData.Some?
    ensures status == Completed ==>
      && calls == [calls[0], UploadMovie(created.id, item.path), UploadThumbnail(item.publishData.value.entityType,
         item.publishData.value.id, if item.thumbnail != "" then item.thumbnail else item.path)]
      && item.uploadPath == Some(item.path)
    ensures !settings.upload && item.thumbnail == "" ==> status == UnboundLocal("upload_path") && |calls| == 1
    ensures settings.upload && item.publishData.None? ==>
      status == UnboundLocal("publish_data") && calls == [calls[0], UploadMovie(created.id, item.path)]
    ensures !settings.upload && item.thumbnail != "" && item.publishData.Some? ==>
      && status == UnboundLocal("upload_path")
      && calls == [calls[0], UploadThumbnail(item.publishData.value.entityType, item.publishData.value.id,
                                             item.thumbnail)]
    ensures !settings.upload && item.thumbnail != "" && item.publishData.None? ==>
      status == UnboundLocal("publish_data") && |calls| == 1
    ensures status != Completed ==> item.uploadPath == old(item.uploadPath)
  {
    var publishName := PublishName(item.publishName, fileName);
    var versionData := VersionData(item.context, publishName, item.description, item.publishData,
      settings.linkLocalFile, item.path);
    calls := [CreateVersion(versionData)];
    item.versionRecord := Some(created);
    var uploadPath: Option<string> := None;
    if settings.upload {
      uploadPath := Some(item.path);
      calls := calls + [UploadMovie(created.id, item.path)];
    }
    var thumb := item.thumbnail;
    if thumb == "" {
      if uploadPath.None? {
        return calls, UnboundLocal("upload_path");
      }
      thumb := uploadPath.value;
    }
    if item.publishData.None? {
      return calls, UnboundLocal("publish_data");
    }
    calls := calls + [UploadThumbnail(item.publishData.value.entityType, item.publishData.value.id, thumb)];
    if uploadPath.None? {
      return calls, UnboundLocal("upload_path");
    }
    item.uploadPath := uploadPath;
    status := Completed;
  }
}
