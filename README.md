# tk-sketchbook decision rules in Dafny

This project models the decision and transformation rules inside the Shotgun
Pipeline Toolkit engine for Autodesk SketchBook (tk-sketchbook), and proves
properties of them. It covers seven parts of the engine:

- **Menu** (`python/tk_sketchbook/menu.py`). The "Shotgun" menu is built from
  the engine's ordered command registry and its context. There is a context
  submenu holding the jump items and the "context_menu" commands, then a
  single separator entry, then one entry per other command. Choosing a command
  either brings its open dialog to front or runs at most one handler. A
  registered command with an unset callback runs nothing, and an unregistered
  name raises KeyError.
- **Operations** (`python/tk_sketchbook/operations.py`). This part covers four
  things:
  - the `ROWSEP`/`COLSEP` parser of `get_references`;
  - the `(success, message)` convention shared by `create_reference`,
    `import_file` and `create_texture_node`: a result dictionary for a
    non-standalone caller, an exception or a confirmation box for a
    standalone one;
  - the empty-list guard of `update_scene`;
  - the lock check, prompt condition and answer mapping of `open_file`.
- **Upload for review** (`hooks/tk-multi-publish2/basic/upload_version.py`).
  Sessions are accepted by a whitelist of file extensions. The plugin builds
  the Version record, then makes its upload and thumbnail calls, in order.
- **Begin file versioning**
  (`hooks/tk-multi-publish2/basic/start_version_control.py`). The plugin
  rejects a session whose path already carries a version number. It looks the
  number up in the work template first and in the path-info lookup second.
  It refuses an existing "v001" file, and saves the session, then saves it
  as "v001".
- **Unsaved file** (`hooks/tk-multi-publish2/unsaved_file.py`). This plugin
  appears, disabled, only for a session that was never saved.
- **Save before publish** (`hooks/tk-multi-publish2/basic/pre_publish.py`).
  This is the gate that runs before the publisher opens.
- **Shotgun panel actions**
  (`hooks/tk-multi-shotgunpanel/basic/scene_actions.py`). This part covers the
  ordered list of action instances and the dispatch of each action.

The native host API, the pipeline framework and Qt are left outside. They play
no part in the rules themselves. Every answer they give becomes an input to the
model:

- a file's existence, a hook's verdict and a dialog's answer are plain values;
- the host's `(success, message)` reply is a `Reply`;
- `get_version_path`, `ShotgunPath.normalize` and `get_publish_path` are
  function parameters;
- the calls the code makes are returned as an ordered trace of effects.

The Python string built-ins the rules rely on are written out in `PyStrings`.
These are `in`, `split`, `strip`, `lstrip`, ASCII `lower` and a
one-character `replace`. `PyStrings` also defines `join`, which no rule calls;
it is there only to state the round trips, which prove that `split` and `join`
are inverses.

Files:

- `wrappers.dfy`: `Option` and `Result`.
- `pystrings.dfy`: the Python string built-ins.
- `toolkit.dfy`: the acceptance dictionary and the message-box answer.
- One file per source file: `menu.dfy`, `operations.dfy`,
  `upload_version.dfy`, `start_version_control.dfy`, `unsaved_file.dfy`,
  `pre_publish.dfy` and `scene_actions.dfy`.

## Model

| member | source | states |
|---|---|---|
| PyStrings.Find | python/tk_sketchbook/operations.py:261 | The result is the first position where the separator occurs, and None exactly when the string does not contain it (Python's `in`). |
| PyStrings.Split | python/tk_sketchbook/operations.py:260 | `str.split(sep)` yields at least one piece, and a string without the separator yields itself alone. |
| PyStrings.JoinSplit | python/tk_sketchbook/operations.py:260 | Joining the pieces of a split with the same separator gives back the original string. |
| PyStrings.SplitPiecesFree | python/tk_sketchbook/operations.py:264 | No piece of a split contains the separator. |
| PyStrings.SplitJoin | hooks/tk-multi-publish2/basic/upload_version.py:163 | Splitting a comma-joined list, none of whose items contains the separator, gives back the list. |
| PyStrings.LStripChar | hooks/tk-multi-publish2/basic/upload_version.py:164 | `lstrip(".")` removes exactly the leading run of the character, so the result does not start with it and is a suffix of the input. |
| PyStrings.LStripSpace | hooks/tk-multi-publish2/basic/upload_version.py:164 | The left half of `strip()` removes exactly the leading run of Python whitespace. |
| PyStrings.RStripSpace | hooks/tk-multi-publish2/basic/upload_version.py:164 | The right half of `strip()` removes exactly the trailing run of Python whitespace. |
| PyStrings.Strip | hooks/tk-multi-publish2/basic/upload_version.py:164 | The result of `strip()` neither starts nor ends with whitespace. |
| PyStrings.Lower | hooks/tk-multi-publish2/basic/upload_version.py:159 | `lower()` keeps the length and maps A-Z to a-z, leaving every other character alone. |
| PyStrings.ReplaceChar | python/tk_sketchbook/operations.py:269 | `replace("/", sep)` keeps the length and substitutes exactly the occurrences of the one character. |
| Menu.ContextCommandNames | python/tk_sketchbook/menu.py:55-61 | A name is listed exactly when some registered command with that name has type "context_menu", and the list is no longer than the registry. |
| Menu.AppsEntries | python/tk_sketchbook/menu.py:64-69 | Every entry has an empty child list, and a caption appears exactly when some command with that name is not of type "context_menu". |
| Menu.ContextSubmenu | python/tk_sketchbook/menu.py:49-62 | The label is the context's string form. The items are Jump to Shotgun, Jump to File System and the separator when the context has filesystem locations, and Jump to Shotgun and the separator otherwise. Either way they are followed by exactly the context-menu command names. |
| Menu.Create | python/tk_sketchbook/menu.py:36-46 | The menu is the context submenu, then `["_SEPARATOR_", []]`, then the app entries. |
| Menu.MenuPartition | python/tk_sketchbook/menu.py:55-69 | The registry, in order, is an interleaving of the context-menu names and the app captions, so every command lands in one group in registry order and the two sizes add up to the registry's. |
| Menu.MenuGroupsDisjoint | python/tk_sketchbook/menu.py:55-69 | With unique names, a registered command is in the context group exactly when its type is "context_menu", and in the app group exactly when it is not. |
| Menu.SingleSeparator | python/tk_sketchbook/menu.py:43-46 | When neither the context nor any command is called "_SEPARATOR_", the second top-level entry is the only separator. |
| Menu.DialogTitles | python/tk_sketchbook/menu.py:99-107 | The two jump commands open no dialog, and no two commands share a dialog title. |
| Menu.DialogForCommand | python/tk_sketchbook/menu.py:97-111 | The search returns the first open dialog whose title is the command's table title, and None exactly when there is no such dialog. A command missing from the table always gets None. |
| Menu.Lookup | python/tk_sketchbook/menu.py:79-80 | Looking a name up in the registry finds a registered command with that name, or reports that none is registered. |
| Menu.DoCommand | python/tk_sketchbook/menu.py:71-95 | When the command has an open dialog, that dialog is brought to front and nothing runs. Otherwise exactly one branch runs: jump to Shotgun, jump to the filesystem, the registered callback, nothing for an unset callback, or a KeyError for an unregistered name. |
| Operations.ParseRow | python/tk_sketchbook/operations.py:264-270 | A row parses exactly when splitting it on "COLSEP" gives two pieces. Otherwise it fails the two-way unpack: "too many values" beyond two pieces, "not enough values" for a row without "COLSEP". A parsed reference has type "reference", its node contains no "COLSEP", and its path contains no "/" when the OS separator differs. |
| Operations.RowRoundTrip | python/tk_sketchbook/operations.py:264-270 | For a node and a path free of "COLSEP", the row `node COLSEP path` parses back to that node, with the path's "/" replaced by the OS separator. |
| Operations.RowShape | python/tk_sketchbook/operations.py:264-270 | A row that parses is its node, "COLSEP" and its raw path, in that order. |
| Operations.TwoSeparatorsFail | python/tk_sketchbook/operations.py:264 | A row with two "COLSEP" fails the unpack with "too many values to unpack". |
| Operations.FailurePersists | python/tk_sketchbook/operations.py:260-264 | Once a row fails the unpack, the whole call fails with that error, whatever rows follow. |
| Operations.KeptRows | python/tk_sketchbook/operations.py:260-262 | A row is kept exactly when it is non-empty and contains "COLSEP", and there are no more kept rows than rows. |
| Operations.KeptRowsAppend | python/tk_sketchbook/operations.py:260-262 | Filtering rows `a + b` gives the kept rows of `a` followed by those of `b`. With KeptRowsSingle, this fixes the order and the multiplicity of the kept rows. |
| Operations.KeptRowsSingle | python/tk_sketchbook/operations.py:260-262 | A single row is kept, once, exactly when it is non-empty and contains "COLSEP"; otherwise nothing is kept. |
| Operations.ReferencesFromKeptRows | python/tk_sketchbook/operations.py:256-274 | The call succeeds exactly when every kept row parses. It then returns one reference per kept row, in row order. |
| Operations.GetReferences | python/tk_sketchbook/operations.py:249-274 | The loop's result is the parse of the "ROWSEP" pieces of the host's listing. |
| Operations.ResultDictOf | python/tk_sketchbook/operations.py:189-192 | `message_type` is "information" exactly on success and "warning" otherwise, `is_error` is the negated success, `publish_path` is the path, and `message_code` is the host's message. |
| Operations.RunFileOperation | python/tk_sketchbook/operations.py:176-247 | A missing path raises before any host call. Otherwise the host call comes first. A non-standalone caller gets the result dictionary. A standalone caller gets an exception exactly on failure, and nothing otherwise. The stage is selected exactly on success, and the confirmation box appears exactly on a standalone success. The whole trace is exact: the host call, then the stage selection on success, then the confirmation box on a standalone success. |
| Operations.CreateReferenceOp | python/tk_sketchbook/operations.py:176-197 | The reference call comes first, and a standalone failure raises "Error creating the reference". |
| Operations.ImportFileOp | python/tk_sketchbook/operations.py:199-224 | With `create_stage` the open-as-new-stage call is made, otherwise the import call. A standalone failure raises "Error import the file". |
| Operations.CreateTextureNodeOp | python/tk_sketchbook/operations.py:226-247 | The texture-node call comes first, and a standalone failure raises "Error creating a texture node". |
| Operations.UpdateSceneOp | python/tk_sketchbook/operations.py:276-291 | An empty item list makes no host call. Otherwise there is exactly one update call, which raises the fixed message exactly on failure. |
| Operations.OpenTrace | python/tk_sketchbook/operations.py:26-52 | The trace of each decision begins with the file-usage check. The prompt appears for every decision except a locked file and an unprompted new-scene open. Opening as a new stage, or as a new scene, appears exactly for that decision. The close notification appears exactly for a new-stage open with a file open. The stage selection appears exactly after a successful open, as the last effect. |
| Operations.OpenFile | python/tk_sketchbook/operations.py:26-52 | The file-usage check comes first, and a refusal aborts. The user is asked exactly when a file is open or there is more than one stage. Cancel aborts and No opens as a new stage, notifying the hook that an open file closed. Anything else, or no question, opens as a new scene. The stage is selected exactly after a successful open, and a failed open raises its message. Every run that does not raise returns None, including a successful open. The trace equals OpenTrace for the decision taken. For a new-stage open it is exactly: the check, the prompt, the close notification when a file is open, the open, then the selection on success. For a new-scene open it is the check, the prompt only if one was shown, the open, then the selection on success. |
| UploadVersion.SettingsSchema | hooks/tk-multi-publish2/basic/upload_version.py:88-104 | The three settings are "File Extensions" (str, default "tif"), "Upload" (bool, default True) and "Link Local File" (bool, default True). |
| UploadVersion.ItemFilters | hooks/tk-multi-publish2/basic/upload_version.py:117 | The plugin filters on "sketchbook.session". |
| UploadVersion.NormalizeExtension | hooks/tk-multi-publish2/basic/upload_version.py:164 | A normalised item neither starts with "." nor ends with whitespace. |
| UploadVersion.NormalizeRemovesDecoration | hooks/tk-multi-publish2/basic/upload_version.py:164 | Surrounding whitespace and leading dots are removed, giving back the bare extension. |
| UploadVersion.NormalizeAll | hooks/tk-multi-publish2/basic/upload_version.py:163-165 | Each item is normalised, in order. |
| UploadVersion.ExtensionList | hooks/tk-multi-publish2/basic/upload_version.py:161-165 | There is one valid extension per comma-separated item, in order, each normalised. |
| UploadVersion.ExtensionListRoundTrip | hooks/tk-multi-publish2/basic/upload_version.py:161-165 | Writing clean extensions as a comma-separated setting and parsing it gives back the same list. |
| UploadVersion.ValidExtensions | hooks/tk-multi-publish2/basic/upload_version.py:161-165 | The loop collects exactly the extension list of the setting. |
| UploadVersion.Accept | hooks/tk-multi-publish2/basic/upload_version.py:145-183 | An unsaved session gives `{accepted: False, checked: False}`. Otherwise the item is accepted exactly when its lower-cased extension is in the valid list, with no other key set. |
| UploadVersion.DefaultsAcceptTif | hooks/tk-multi-publish2/basic/upload_version.py:88-93 | Under the default settings an extension is valid exactly when it is "tif" in any letter case. |
| UploadVersion.VersionEntity | hooks/tk-multi-publish2/basic/upload_version.py:322-332 | The result is the context's entity when set, else its project, and None exactly when both are unset. |
| UploadVersion.PublishName | hooks/tk-multi-publish2/basic/upload_version.py:217-224 | The result is the "publish_name" property when it is set and non-empty, else the path's filename. |
| UploadVersion.VersionData | hooks/tk-multi-publish2/basic/upload_version.py:229-242 | The record always holds project, code, description, entity and sg_task. "published_files" is present exactly when the item carries publish data, and "sg_path_to_movie" exactly when "Link Local File" is on. There is no other key, and each value is the one the code writes. |
| UploadVersion.Publish | hooks/tk-multi-publish2/basic/upload_version.py:200-295 | The Version is created first and stored on the item. The movie is uploaded exactly when "Upload" is on. The run completes (movie upload, then thumbnail upload with the path as fallback thumbnail, then "upload_path" stored) exactly when "Upload" is on and the item carries publish data. Otherwise it ends on an unbound local. With "Upload" on and no publish data, that local is `publish_data`. With "Upload" off and no thumbnail, it is `upload_path`, right after the create call. With "Upload" off and a thumbnail, the thumbnail is uploaded first and then `upload_path` is unbound when the item has publish data; without publish data, `publish_data` is unbound after the create call. "upload_path" is left unwritten on every failing run. With "Upload" on and no publish data, the calls are exactly the create call and then the movie upload. |
| StartVersionControl.TemplateVersion | hooks/tk-multi-publish2/basic/start_version_control.py:248-254 | A version comes from the work template exactly when there is a template, it validates the path, and its fields hold a non-None "version". |
| StartVersionControl.GetVersionNumber | hooks/tk-multi-publish2/basic/start_version_control.py:230-264 | The template's version is used when it yields one, and the path-info lookup's result otherwise. |
| StartVersionControl.Accept | hooks/tk-multi-publish2/basic/start_version_control.py:119-153 | The session is rejected with `{accepted: False}` exactly when it is saved and a version number is found. Every other case gives `{accepted: True, checked: False}`. |
| StartVersionControl.Validate | hooks/tk-multi-publish2/basic/start_version_control.py:169-188 | Validation raises "A file already exists with a version number. Please choose another name." exactly when the "v001" path exists, and is True otherwise. |
| StartVersionControl.Publish | hooks/tk-multi-publish2/basic/start_version_control.py:200-213 | The plugin saves the current file, then saves it as the "v001" path of the normalised session path, in that order. |
| UnsavedFile.Accept | hooks/tk-multi-publish2/unsaved_file.py:128-138 | The plugin is accepted exactly when the path is None or empty. It then gives `{accepted: True, checked: False, disabled: True}`, and `{accepted: False, visible: False}` otherwise. |
| UnsavedFile.Settings | hooks/tk-multi-publish2/unsaved_file.py:88 | The plugin declares no settings. |
| UnsavedFile.ItemFilters | hooks/tk-multi-publish2/unsaved_file.py:101 | The plugin filters on "sketchbook.session". |
| UnsavedFile.Validate | hooks/tk-multi-publish2/unsaved_file.py:140-141 | `validate` is always True. |
| UnsavedFile.Publish | hooks/tk-multi-publish2/unsaved_file.py:143-144 | `publish` is always True. |
| UnsavedFile.Finalize | hooks/tk-multi-publish2/unsaved_file.py:146-147 | `finalize` is always True. |
| PrePublish.RaisedMessage | hooks/tk-multi-publish2/basic/pre_publish.py:35-51 | This is the first AttributeError on the path the gate takes: reading the path, or, after a Yes, the save dialog or the second read. |
| PrePublish.Validate | hooks/tk-multi-publish2/basic/pre_publish.py:26-59 | With the setting off, the result is True with no dialog. A saved session gives True with no prompt. No answer other than Yes gives False after the prompt. A Yes gives "the path read after the save dialog is non-empty". An AttributeError gives False, with an error box showing "Error: '<message>'" last. When reading the path raises, that box is the only effect. When the save dialog after a Yes raises, the trace is exactly: the prompt, the dialog, the box. True always means the setting is off or a non-empty path was read. |
| SceneActions.GenerateActions | hooks/tk-multi-shotgunpanel/basic/scene_actions.py:22-95 | The list starts with the base hook's actions, or none. "open_file" and "add_image" entries, with their fixed captions and descriptions and None params, are appended exactly when requested, "open_file" first. The length is the base count plus the number of the two names requested. |
| SceneActions.ExecuteAction | hooks/tk-multi-shotgunpanel/basic/scene_actions.py:97-127 | "open_file" opens the publish's path and "add_image" adds it as an image. Any other name goes to the base hook, or does nothing when the base has no such method. There is at most one call. |
| SceneActions.ExecuteMultipleActions | hooks/tk-multi-shotgunpanel/basic/scene_actions.py:129-158 | `execute_action` is dispatched once per entry, in list order, with that entry's name, params and Shotgun data, and the calls are those of the entries in turn. |
| SceneActions.OneEffectPerRequest | hooks/tk-multi-shotgunpanel/basic/scene_actions.py:113-158 | When the base hook handles the other names, the k-th call issued is the one the k-th entry asks for. |
| SceneActions.AtMostOneEffectEach | hooks/tk-multi-shotgunpanel/basic/scene_actions.py:154-158 | Running a list never issues more calls than it has entries. |

## Left out

- Logging, icons, names, descriptions and HTML help texts are left out. They hold no rules.
- The shell commands of `jump_to_fs` and the URL opening of `jump_to_sg` (menu.py:113-143) become the `JumpToFileSystem` and `JumpToShotgun` actions. The OS-specific commands and their exit codes are not modelled.
- Bringing a dialog to front (`show`, `activateWindow`, `raise_`) becomes the `BringToFront` action.
- Menu.ContextCommandNames / Menu.AppsEntries: a command whose "properties" is None, or missing (`.get` then returns None), makes the comprehensions at menu.py:55-61 and 64-69 raise AttributeError. The model assumes every command has a properties dictionary. A missing "type" key is `None` in the model, as in the code.
- operations.py imports `sketchbook_api` (line 9) but calls `alias_api`. The model takes the host's answers as inputs, whichever module gives them.
- `get_current_path`, `get_info`, `get_annotations`, `get_variants`, `get_stages_number`, `save_file`, `save_file_as`, `reset_scene`, `open_file_as_new_scene`, `open_file_as_new_stage` (their hook and host calls are part of OpenFile's trace) and `create_new_file` in operations.py are left out as operations. They are direct calls to the host. Only their answers appear, as inputs to `OpenFile`, `RunFileOperation` and `GetReferences`.
- Operations.CreateReferenceOp / Operations.ImportFileOp / Operations.CreateTextureNodeOp: Python's defaults `standalone=True` (operations.py:176, 199, 226) and `create_stage=False` (operations.py:199) are not modelled as defaults. The model takes them as required parameters, so a caller states both values.
- Operations.OpenFile: it assumes the host path is the same at the prompt check and at `current_file_closed`, because it reads the path once. The host's queries (path, stage count) are inputs and are not recorded in the trace.
- `os.path.sep` is a parameter (`osSep`), and `os.path.exists` a boolean input.
- PyStrings.Lower: ASCII only. Python's `lower()` also folds non-ASCII letters; the model does not.
- UploadVersion.Accept: the "extension" component from `get_file_path_components` is an input, not computed from the path.
- UploadVersion.Publish: a "sg_publish_data" property that is present but None is treated as absent. In the code it would still add `published_files: [None]`; it would skip the thumbnail and reach line 295. The entity dictionaries are records of type and id.
- UploadVersion.Publish: `six.ensure_text` on Windows (line 271) is the identity in the model. Shotgun's answers are inputs (`created`), and the unbound-local cases at lines 285, 288 and 295 are error outcomes, with no fallback invented.
- `validate`, `finalize` and `_get_save_as_action` of upload_version.py are left out: `validate` is always True and `finalize` only logs.
- The `settings` and `item_filters` of start_version_control.py are not modelled separately. They are the same empty dictionary and `["sketchbook.session"]` as in `UnsavedFile`.
- PrePublish.Validate: the question box itself is assumed not to raise, and the answer is an input.
- SceneActions.ExecuteMultipleActions: an exception raised midway by the host's open or add-image call, or by the base hook, is not modelled. The model runs every entry.
- engine.py, startup.py, startup/start.py, the two collectors and scene_operation.py are not part of this model. They are bootstrap, UI glue or stubs.
