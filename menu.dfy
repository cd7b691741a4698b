/**
 * The SketchBook "Shotgun" menu: the nested list of labels handed to the
 * host, and the dispatch of a chosen menu command.
 */
module Menu {
  import opened Wrappers

  const JumpToShotgunText := "Jump to Shotgun"
  const JumpToFileSystemText := "Jump to File System"
  const SeparatorItem := "_SEPARATOR_"
  const ContextMenuType := "context_menu"

  /** Identifies the callback a registered command runs. */
  type CallbackId = nat

  /**
   * One entry of the engine's command registry: its name (the registry key),
   * the "type" of its properties (None when the properties have no "type")
   * and its callback (None when the callback is unset or falsy).
   */
  datatype Command = Command(name: string, commandType: Option<string>, callback: Option<CallbackId>)

  /** The engine's context: its string form and its filesystem locations. */
  datatype Context = Context(display: string, filesystemLocations: seq<string>)

  /** `[label, items]`: a top-level menu entry with the captions of its sub-items. */
  datatype MenuEntry = MenuEntry(caption: string, items: seq<string>)

  /** An open Qt dialog, known by its window title. */
  datatype Dialog = Dialog(windowTitle: string)

  /** The registry is a dictionary: no name is registered twice. */
  predicate DistinctNames(commands: seq<Command>) {
    forall i, j :: 0 <= i < j < |commands| ==> commands[i].name != commands[j].name
  }

  predicate IsContextMenu(c: Command) {
    c.commandType == Some(ContextMenuType)
  }

  function Names(commands: seq<Command>): (r: seq<string>)
    ensures |r| == |commands| && forall k :: 0 <= k < |r| ==> r[k] == commands[k].name
  {
    seq(|commands|, k requires 0 <= k < |commands| => commands[k].name)
  }

  function Captions(entries: seq<MenuEntry>): (r: seq<string>)
    ensures |r| == |entries| && forall k :: 0 <= k < |r| ==> r[k] == entries[k].caption
  {
    seq(|entries|, k requires 0 <= k < |entries| => entries[k].caption)
  }

  /** The names of the "context_menu" commands, in registry order. */
  function ContextCommandNames(commands: seq<Command>): (r: seq<string>)
    ensures |r| <= |commands|
    ensures forall n :: n in r <==> exists c :: c in commands && IsContextMenu(c) && c.name == n
    decreases |commands|
  {
    if commands == [] then []
    else
      var rest := ContextCommandNames(commands[1..]);
      assert forall c :: c in commands <==> c == commands[0] || c in commands[1..];
      if IsContextMenu(commands[0]) then [commands[0].name] + rest else rest
  }

  /** `[name, []]` for every command that is not a "context_menu" one, in registry order. */
  function AppsEntries(commands: seq<Command>): (r: seq<MenuEntry>)
    ensures |r| <= |commands|
    ensures forall k :: 0 <= k < |r| ==> r[k].items == []
    ensures forall n :: n in Captions(r) <==> exists c :: c in commands && !IsContextMenu(c) && c.name == n
    decreases |commands|
  {
    if commands == [] then []
    else
      var rest := AppsEntries(commands[1..]);
      assert forall c :: c in commands <==> c == commands[0] || c in commands[1..];
      if IsContextMenu(commands[0]) then rest
      else
        var r := [MenuEntry(commands[0].name, [])] + rest;
        assert Captions(r) == [commands[0].name] + Captions(rest);
        r
  }

  /** The fixed items that open the context submenu. */
  function ContextPrefix(context: Context): seq<string> {
    if |context.filesystemLocations| > 0 then [JumpToShotgunText, JumpToFileSystemText, SeparatorItem]
    else [JumpToShotgunText, SeparatorItem]
  }

  /** `[str(context), names]`: the jump items, a separator, then the context-menu commands. */
  function ContextSubmenu(context: Context, commands: seq<Command>): (r: MenuEntry)
    ensures r.caption == context.display
    ensures |context.filesystemLocations| > 0 ==>
      && |r.items| >= 3
      && r.items[..3] == [JumpToShotgunText, JumpToFileSystemText, SeparatorItem]
      && r.items[3..] == ContextCommandNames(commands)
    ensures |context.filesystemLocations| == 0 ==>
      && |r.items| >= 2
      && r.items[..2] == [JumpToShotgunText, SeparatorItem]
      && r.items[2..] == ContextCommandNames(commands)
  {
    MenuEntry(context.display, ContextPrefix(context) + ContextCommandNames(commands))
  }

  /** The whole menu: the context submenu, one separator entry, then the app entries. */
  function Create(context: Context, commands: seq<Command>): (r: seq<MenuEntry>)
    ensures |r| >= 2
    ensures r[0] == ContextSubmenu(context, commands)
    ensures r[1] == MenuEntry(SeparatorItem, [])
    ensures r[2..] == AppsEntries(commands)
  {
    [ContextSubmenu(context, commands), MenuEntry(SeparatorItem, [])] + AppsEntries(commands)
  }

  /**
   * `c` is an interleaving of `a` and `b`: every element of `c` is taken, in
   * order, from the front of exactly one of them.
   */
  ghost predicate IsMerge(a: seq<string>, b: seq<string>, c: seq<string>)
    decreases |c|
  {
    if c == [] then a == [] && b == []
    else
      || (a != [] && a[0] == c[0] && IsMerge(a[1..], b, c[1..]))
      || (b != [] && b[0] == c[0] && IsMerge(a, b[1..], c[1..]))
  }

  /**
   * The registry splits into the context-menu names and the app-entry captions:
   * their interleaving is the registry itself, so every command lands in one
   * group, in registry order, and the sizes add up.
   */
  lemma {:induction false} MenuPartition(commands: seq<Command>)
    ensures IsMerge(ContextCommandNames(commands), Captions(AppsEntries(commands)), Names(commands))
    ensures |ContextCommandNames(commands)| + |AppsEntries(commands)| == |commands|
    decreases |commands|
  {
    if commands != [] {
      var tail := commands[1..];
      MenuPartition(tail);
      assert Names(commands)[1..] == Names(tail);
      if IsContextMenu(commands[0]) {
        assert ContextCommandNames(commands) == [commands[0].name] + ContextCommandNames(tail);
        assert ContextCommandNames(commands)[1..] == ContextCommandNames(tail);
      } else {
        var r := AppsEntries(commands);
        assert r == [MenuEntry(commands[0].name, [])] + AppsEntries(tail);
        assert Captions(r)[1..] == Captions(AppsEntries(tail));
      }
    }
  }

  /** With distinct names, each registered command appears in exactly one of the two groups. */
  lemma MenuGroupsDisjoint(commands: seq<Command>, c: Command)
    requires DistinctNames(commands) && c in commands
    ensures c.name in ContextCommandNames(commands) <==> IsContextMenu(c)
    ensures c.name in Captions(AppsEntries(commands)) <==> !IsContextMenu(c)
  {
    if c.name in ContextCommandNames(commands) {
      var d :| d in commands && IsContextMenu(d) && d.name == c.name;
      SameNameSameCommand(commands, c, d);
    }
    if c.name in Captions(AppsEntries(commands)) {
      var d :| d in commands && !IsContextMenu(d) && d.name == c.name;
      SameNameSameCommand(commands, c, d);
    }
  }

  lemma SameNameSameCommand(commands: seq<Command>, c: Command, d: Command)
    requires DistinctNames(commands) && c in commands && d in commands && c.name == d.name
    ensures c == d
  {
    var i :| 0 <= i < |commands| && commands[i] == c;
    var j :| 0 <= j < |commands| && commands[j] == d;
  }

  /**
   * When no command and not the context are called "_SEPARATOR_", the top
   * level holds exactly one separator entry, the second one.
   */
  lemma SingleSeparator(context: Context, commands: seq<Command>)
    requires context.display != SeparatorItem
    requires forall c :: c in commands ==> c.name != SeparatorItem
    ensures forall k :: 0 <= k < |Create(context, commands)| ==>
      (Create(context, commands)[k].caption == SeparatorItem <==> k == 1)
  {
    var r := Create(context, commands);
    var apps := AppsEntries(commands);
    forall k | 2 <= k < |r| ensures r[k].caption != SeparatorItem {
      assert r[k] == apps[k - 2];
      assert Captions(apps)[k - 2] == r[k].caption;
      assert r[k].caption in Captions(apps);
    }
  }

  /** The dialog title each known command opens; None for any other command. */
  function DialogTitle(commandName: string): Option<string> {
    var titles := map[
      "Shotgun Panel..." := "Shotgun: Shotgun",
      "Publish..." := "Shotgun: Publish",
      "Load..." := "Shotgun: Loader",
      "Work Area Info..." := "Shotgun: Your Current Work Area",
      "Shotgun Python Console" := "Shotgun: Shotgun Python Console",
      "File Open..." := "Shotgun: File Open",
      "File Save..." := "Shotgun: File Save"];
    if commandName in titles then Some(titles[commandName]) else None
  }

  /** The dialog is the one the command opens. */
  predicate OpenedBy(dialog: Dialog, commandName: string) {
    DialogTitle(commandName) == Some(dialog.windowTitle)
  }

  /** The two jump commands open no dialog, and no two commands share a dialog title. */
  lemma DialogTitles(a: string, b: string)
    ensures DialogTitle(JumpToShotgunText) == None && DialogTitle(JumpToFileSystemText) == None
    ensures DialogTitle(a).Some? && DialogTitle(a) == DialogTitle(b) ==> a == b
  {
  }

  /** The position of the first open dialog that `commandName` opens, if any. */
  method DialogForCommand(dialogs: seq<Dialog>, commandName: string) returns (found: Option<nat>)
    ensures found.Some? ==> found.value < |dialogs| && OpenedBy(dialogs[found.value], commandName)
    ensures found.Some? ==> forall j :: 0 <= j < found.value ==> !OpenedBy(dialogs[j], commandName)
    ensures found.None? <==> forall j :: 0 <= j < |dialogs| ==> !OpenedBy(dialogs[j], commandName)
    ensures DialogTitle(commandName).None? ==> found.None?
  {
    var i := 0;
    while i < |dialogs|
      invariant 0 <= i <= |dialogs|
      invariant forall j :: 0 <= j < i ==> !OpenedBy(dialogs[j], commandName)
    {
      if DialogTitle(commandName) == Some(dialogs[i].windowTitle) {
        return Some(i);
      }
      i := i + 1;
    }
    return None;
  }

  /** What choosing a menu command does. */
  datatype MenuAction =
    | BringToFront(dialog: nat)      // the command's dialog is already open
    | JumpToShotgun
    | JumpToFileSystem
    | RunCallback(callback: CallbackId)
    | NoCallback                     // registered, but its callback is unset
    | UnknownCommand                 // `commands[name]` raises KeyError

  /** The registry entry named `name`, if any. */
  function Lookup(commands: seq<Command>, name: string): (r: Option<Command>)
    ensures r.Some? ==> r.value in commands && r.value.name == name
    ensures r.None? ==> forall c :: c in commands ==> c.name != name
  {
    if commands == [] then None
    else if commands[0].name == name then Some(commands[0])
    else Lookup(commands[1..], name)
  }

  /** `alreadyRunning` and `doCommand`: bring a running dialog to front, or run exactly one branch. */
  method DoCommand(commands: seq<Command>, dialogs: seq<Dialog>, commandName: string) returns (action: MenuAction)
    ensures action.BringToFront? <==> exists j :: 0 <= j < |dialogs| && OpenedBy(dialogs[j], commandName)
    ensures action.BringToFront? ==>
      && action.dialog < |dialogs| && OpenedBy(dialogs[action.dialog], commandName)
      && forall j :: 0 <= j < action.dialog ==> !OpenedBy(dialogs[j], commandName)
    ensures !action.BringToFront? ==>
      if commandName == JumpToShotgunText then action == JumpToShotgun
      else if commandName == JumpToFileSystemText then action == JumpToFileSystem
      else match Lookup(commands, commandName)
        case None => action == UnknownCommand
        case Some(c) => action == (if c.callback.Some? then RunCallback(c.callback.value) else NoCallback)
  {
    var running := DialogForCommand(dialogs, commandName);
    if running.None? {
      if commandName == JumpToShotgunText {
        action := JumpToShotgun;
      } else if commandName == JumpToFileSystemText {
        action := JumpToFileSystem;
      } else {
        var entry := Lookup(commands, commandName);
        if entry.None? {
          action := UnknownCommand;
        } else if entry.value.callback.Some? {
          action := RunCallback(entry.value.callback.value);
        } else {
          action := NoCallback;
        }
      }
    } else {
      // bringToFront asks dialogForCommand again and gets the same dialog
      var dialog := DialogForCommand(dialogs, commandName);
      action := BringToFront(dialog.value);
    }
  }
}
