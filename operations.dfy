/**
 * The file-operations facade over the host's native API: the parser of the
 * host's reference listing, the open-file decision, and the conversion of the
 * host's `(success, message)` replies into result dictionaries or exceptions.
 */
module Operations {
  import opened Wrappers
  import opened PyStrings
  import opened Toolkit

  const ColSeparator := "COLSEP"
  const RowSeparator := "ROWSEP"
  /** The errors Python's two-way unpack raises for a row with more, or fewer, than two pieces. */
  const TooManyValues := "too many values to unpack (expected 2)"
  const NotEnoughValues := "not enough values to unpack (expected 2, got 1)"

  /** One referenced file: `{"node": ..., "type": "reference", "path": ...}`. */
  datatype Reference = Reference(node: string, kind: string, path: string)

  // ---------------------------------------------------------------------------
  // get_references

  /** A row the parser keeps: non-empty and containing the column separator. */
  predicate RowKept(row: string) {
    row != "" && Contains(row, ColSeparator)
  }

  /**
   * `name, path = row.split("COLSEP")` and the dictionary built from them;
   * the two-way unpack raises unless the row splits into exactly two pieces.
   */
  function ParseRow(row: string, osSep: char): (r: Result<Reference, string>)
    ensures r.Success? <==> |Split(row, ColSeparator)| == 2
    ensures r.Failure? ==> r.error == (if |Split(row, ColSeparator)| > 2 then TooManyValues else NotEnoughValues)
    ensures !Contains(row, ColSeparator) ==> r == Failure(NotEnoughValues)
    ensures r.Success? ==> r.value.kind == "reference" && !Contains(r.value.node, ColSeparator)
    ensures r.Success? && osSep != '/' ==> '/' !in r.value.path
  {
    var parts := Split(row, ColSeparator);
    SplitPiecesFree(row, ColSeparator);
    if |parts| == 2 then Success(Reference(parts[0], "reference", ReplaceChar(parts[1], '/', osSep)))
    else if |parts| > 2 then Failure(TooManyValues)
    else Failure(NotEnoughValues)
  }

  /** "COLSEP" cannot overlap itself, so after a head free of it the first occurrence is right there. */
  lemma ColSeparatorAfterFreeHead(head: string, rest: string)
    requires !Contains(head, ColSeparator)
    ensures Find(head + ColSeparator + rest, ColSeparator) == Some(|head|)
  {
    var s := head + ColSeparator + rest;
    assert OccursAt(s, ColSeparator, |head|) by {
      assert s[|head|..|head| + 6] == ColSeparator;
    }
    forall j | 0 <= j < |head| ensures !OccursAt(s, ColSeparator, j) {
      if j + 6 <= |head| {
        assert s[j..j + 6] == head[j..j + 6];
        assert !OccursAt(head, ColSeparator, j);
      } else {
        var d := |head| - j;
        assert 1 <= d <= 5;
        assert s[j..j + 6][d] == s[|head|] == 'C';
        assert ColSeparator[d] != 'C';
      }
    }
  }

  /** A row written as `node COLSEP path`, neither part holding the separator, parses back. */
  lemma {:induction false} RowRoundTrip(node: string, rawPath: string, osSep: char)
    requires !Contains(node, ColSeparator) && !Contains(rawPath, ColSeparator)
    ensures ParseRow(node + ColSeparator + rawPath, osSep)
      == Success(Reference(node, "reference", ReplaceChar(rawPath, '/', osSep)))
  {
    ColSeparatorAfterFreeHead(node, rawPath);
    SplitAt(node, ColSeparator, rawPath);
  }

  /** Every row that parses is `node COLSEP path` with the separator in neither part. */
  lemma RowShape(row: string, osSep: char)
    requires ParseRow(row, osSep).Success?
    ensures var parts := Split(row, ColSeparator);
      && row == parts[0] + ColSeparator + parts[1]
      && !Contains(parts[0], ColSeparator) && !Contains(parts[1], ColSeparator)
      && ParseRow(row, osSep).value == Reference(parts[0], "reference", ReplaceChar(parts[1], '/', osSep))
  {
    var parts := Split(row, ColSeparator);
    JoinSplit(row, ColSeparator);
    SplitPiecesFree(row, ColSeparator);
    assert parts[1..] == [parts[1]];
  }

  /** A row with a second separator after the path fails the two-way unpack. */
  lemma {:induction false} TwoSeparatorsFail(node: string, path: string, extra: string, osSep: char)
    requires !Contains(node, ColSeparator) && !Contains(path, ColSeparator)
    ensures ParseRow(node + ColSeparator + path + ColSeparator + extra, osSep) == Failure(TooManyValues)
  {
    var tail := path + ColSeparator + extra;
    assert node + ColSeparator + path + ColSeparator + extra == node + ColSeparator + tail;
    ColSeparatorAfterFreeHead(node, tail);
    SplitAt(node, ColSeparator, tail);
    ColSeparatorAfterFreeHead(path, extra);
    SplitAt(path, ColSeparator, extra);
  }

  /** The references of `rows`, row by row; the first failing unpack aborts the whole parse. */
  function ParseReferences(rows: seq<string>, osSep: char): Result<seq<Reference>, string>
    decreases |rows|
  {
    if rows == [] then Success([])
    else
      var row := rows[|rows| - 1];
      match ParseReferences(rows[..|rows| - 1], osSep)
      case Failure(e) => Failure(e)
      case Success(refs) =>
        if !RowKept(row) then Success(refs)
        else match ParseRow(row, osSep)
          case Failure(e) => Failure(e)
          case Success(ref) => Success(refs + [ref])
  }

  /** A failure in a prefix of the rows is the failure of all of them. */
  lemma {:induction false} FailurePersists(rows: seq<string>, k: nat, osSep: char)
    requires k <= |rows| && ParseReferences(rows[..k], osSep).Failure?
    ensures ParseReferences(rows, osSep) == ParseReferences(rows[..k], osSep)
    decreases |rows| - k
  {
    if k < |rows| {
      var prefix := rows[..k + 1];
      assert prefix[..k] == rows[..k];
      FailurePersists(rows, k + 1, osSep);
    } else {
      assert rows[..k] == rows;
    }
  }

  /** The rows the parser keeps, in order. */
  function KeptRows(rows: seq<string>): (r: seq<string>)
    ensures |r| <= |rows|
    ensures forall k :: 0 <= k < |r| ==> RowKept(r[k])
    ensures forall x :: x in r <==> x in rows && RowKept(x)
    decreases |rows|
  {
    if rows == [] then []
    else
      var init := rows[..|rows| - 1];
      var rest := KeptRows(init);
      assert rows == init + [rows[|rows| - 1]];
      if RowKept(rows[|rows| - 1]) then rest + [rows[|rows| - 1]] else rest
  }

  /** Filtering a concatenation filters each part, keeping order and multiplicity. */
  lemma {:induction false} KeptRowsAppend(a: seq<string>, b: seq<string>)
    ensures KeptRows(a + b) == KeptRows(a) + KeptRows(b)
    decreases |b|
  {
    if b == [] {
      assert a + b == a;
    } else {
      var init := b[..|b| - 1];
      KeptRowsAppend(a, init);
      assert (a + b)[..|a + b| - 1] == a + init;
      assert (a + b)[|a + b| - 1] == b[|b| - 1];
    }
  }

  /** A single row is kept, once, exactly when it is non-empty and holds "COLSEP". */
  lemma KeptRowsSingle(x: string)
    ensures KeptRows([x]) == if RowKept(x) then [x] else []
  {
    assert [x][..0] == [];
  }

  /**
   * The parse succeeds exactly when every kept row unpacks, and then yields
   * one reference per kept row, in row order.
   */
  lemma {:induction false} ReferencesFromKeptRows(rows: seq<string>, osSep: char)
    ensures ParseReferences(rows, osSep).Success? <==>
      forall k :: 0 <= k < |KeptRows(rows)| ==> ParseRow(KeptRows(rows)[k], osSep).Success?
    ensures ParseReferences(rows, osSep).Success? ==>
      var refs := ParseReferences(rows, osSep).value;
      && |refs| == |KeptRows(rows)| <= |rows|
      && forall k :: 0 <= k < |refs| ==> refs[k] == ParseRow(KeptRows(rows)[k], osSep).value
    decreases |rows|
  {
    if rows != [] {
      var init := rows[..|rows| - 1];
      var row := rows[|rows| - 1];
      ReferencesFromKeptRows(init, osSep);
      var kept := KeptRows(rows);
      var keptInit := KeptRows(init);
      if RowKept(row) {
        assert kept == keptInit + [row];
        assert forall k :: 0 <= k < |keptInit| ==> kept[k] == keptInit[k];
        if ParseReferences(init, osSep).Failure? {
          var k :| 0 <= k < |keptInit| && !ParseRow(keptInit[k], osSep).Success?;
          assert !ParseRow(kept[k], osSep).Success?;
        } else if ParseRow(row, osSep).Failure? {
          assert kept[|keptInit|] == row;
        } else {
          var refs := ParseReferences(init, osSep).value;
          assert ParseReferences(rows, osSep) == Success(refs + [ParseRow(row, osSep).value]);
        }
      } else {
        assert kept == keptInit;
      }
    }
  }

  /**
   * `get_references`: split the host's listing into rows and build one
   * reference per kept row. `osSep` is the platform's path separator.
   */
  method GetReferences(listing: string, osSep: char) returns (result: Result<seq<Reference>, string>)
    ensures result == ParseReferences(Split(listing, RowSeparator), osSep)
  {
    var rows := Split(listing, RowSeparator);
    var references := [];
    for i := 0 to |rows|
      invariant ParseReferences(rows[..i], osSep) == Success(references)
    {
      var row := rows[i];
      assert rows[..i + 1][..i] == rows[..i];
      if row == "" || !Contains(row, ColSeparator) {
        continue;
      }
      var parsed := ParseRow(row, osSep);
      if parsed.Failure? {
        FailurePersists(rows, i + 1, osSep);
        return Failure(parsed.error);
      }
      references := references + [parsed.value];
    }
    assert rows[..|rows|] == rows;
    return Success(references);
  }

  // ---------------------------------------------------------------------------
  // Calls into the host, and what they answer

  /** A `(success, message)` pair returned by the native API. */
  datatype Reply = Reply(success: bool, message: string)

  /** An effect on the host, the file-usage hook or the user, in the order issued. */
  datatype Effect =
    | FileAttemptOpen(path: string)      // file_usage_hook.file_attempt_open
    | FileClosed(path: string)           // file_usage_hook.file_closed
    | AskDeleteObjects                   // the "DELETE all objects ..." question
    | OpenAsNewStage(path: string)
    | OpenAsNewScene(path: string)
    | StageSelected                      // engine.stage_selected()
    | CreateReference(path: string)
    | ImportFile(path: string)
    | CreateTextureNode(path: string)
    | UpdateScene(items: seq<string>)
    | InfoBox(title: string, text: string)

  /** The dictionary returned to a non-standalone caller. */
  datatype ResultDict = ResultDict(messageType: string, messageCode: string, publishPath: string, isError: bool)

  /** How an operation ended: by returning None, by returning a dictionary, or by raising. */
  datatype Outcome = ReturnedNone | ReturnedDict(dict: ResultDict) | Raised(message: string)

  /** The effects an operation issued and how it ended. */
  datatype Run = Run(effects: seq<Effect>, outcome: Outcome)

  /** The result dictionary for a host reply on `path`. */
  function ResultDictOf(reply: Reply, path: string): (d: ResultDict)
    ensures d.messageType == "information" <==> reply.success
    ensures d.messageType == "warning" <==> !reply.success
    ensures d.isError == !reply.success
    ensures d.publishPath == path && d.messageCode == reply.message
  {
    ResultDict(if reply.success then "information" else "warning", reply.message, path, !reply.success)
  }

  /** The three file operations that share the result convention (import split by `create_stage`). */
  datatype FileOperation = ReferenceFile | ImportIntoScene | ImportAsStage | TextureNode

  function HostCall(op: FileOperation, path: string): Effect {
    match op
    case ReferenceFile => CreateReference(path)
    case ImportIntoScene => ImportFile(path)
    case ImportAsStage => OpenAsNewStage(path)
    case TextureNode => CreateTextureNode(path)
  }

  function FailureMessage(op: FileOperation): string {
    match op
    case ReferenceFile => "Error creating the reference"
    case ImportIntoScene => "Error import the file"
    case ImportAsStage => "Error import the file"
    case TextureNode => "Error creating a texture node"
  }

  function Confirmation(op: FileOperation): Effect {
    match op
    case ReferenceFile => InfoBox("Reference File", "File referenced successfully.")
    case ImportIntoScene => InfoBox("Import File", "File imported successfully.")
    case ImportAsStage => InfoBox("Import File", "File imported successfully.")
    case TextureNode => InfoBox("Texture Node", "Texture node created successfully.")
  }

  function NotFoundMessage(path: string): string {
    "File not found on disk - '" + path + "'"
  }

  /**
   * The shared shape of `create_reference`, `import_file` and
   * `create_texture_node`: `onDisk` is `os.path.exists(path)`, `reply` the
   * host's answer to the one host call.
   */
  function RunFileOperation(op: FileOperation, path: string, onDisk: bool, reply: Reply, standalone: bool): (r: Run)
    ensures !onDisk ==> r == Run([], Raised(NotFoundMessage(path)))
    ensures onDisk ==> |r.effects| >= 1 && r.effects[0] == HostCall(op, path)
    ensures onDisk ==>
      r.effects == [HostCall(op, path)] + (if reply.success then [StageSelected] else [])
        + (if reply.success && standalone then [Confirmation(op)] else [])
    ensures onDisk && !standalone ==> r.outcome == ReturnedDict(ResultDictOf(reply, path))
    ensures onDisk && standalone ==> (r.outcome == Raised(FailureMessage(op)) <==> !reply.success)
    ensures onDisk && standalone && reply.success ==> r.outcome == ReturnedNone
    ensures StageSelected in r.effects <==> onDisk && reply.success
    ensures Confirmation(op) in r.effects <==> onDisk && reply.success && standalone
  {
    if !onDisk then Run([], Raised(NotFoundMessage(path)))
    else
      var selected := if reply.success then [HostCall(op, path), StageSelected] else [HostCall(op, path)];
      if !standalone then Run(selected, ReturnedDict(ResultDictOf(reply, path)))
      else if !reply.success then Run(selected, Raised(FailureMessage(op)))
      else Run(selected + [Confirmation(op)], ReturnedNone)
  }

  /** `create_reference`: the host's create-reference call under the shared convention. */
  function CreateReferenceOp(path: string, onDisk: bool, reply: Reply, standalone: bool): (r: Run)
    ensures onDisk ==> |r.effects| >= 1 && r.effects[0] == CreateReference(path)
    ensures onDisk && standalone && !reply.success ==> r.outcome == Raised("Error creating the reference")
  {
    RunFileOperation(ReferenceFile, path, onDisk, reply, standalone)
  }

  /** `import_file`: a new stage when `createStage`, otherwise an import into the scene. */
  function ImportFileOp(path: string, createStage: bool, onDisk: bool, reply: Reply, standalone: bool): (r: Run)
    ensures onDisk ==> |r.effects| >= 1 && r.effects[0] == (if createStage then OpenAsNewStage(path) else ImportFile(path))
    ensures onDisk && standalone && !reply.success ==> r.outcome == Raised("Error import the file")
  {
    RunFileOperation(if createStage then ImportAsStage else ImportIntoScene, path, onDisk, reply, standalone)
  }

  /** `create_texture_node`: the host's texture-node call under the shared convention. */
  function CreateTextureNodeOp(path: string, onDisk: bool, reply: Reply, standalone: bool): (r: Run)
    ensures onDisk ==> |r.effects| >= 1 && r.effects[0] == CreateTextureNode(path)
    ensures onDisk && standalone && !reply.success ==> r.outcome == Raised("Error creating a texture node")
  {
    RunFileOperation(TextureNode, path, onDisk, reply, standalone)
  }

  /** `update_scene`: no host call for an empty list, otherwise one call that raises on failure. */
  function UpdateSceneOp(items: seq<string>, reply: Reply): (r: Run)
    ensures items == [] ==> r == Run([], ReturnedNone)
    ensures items != [] ==> r.effects == [UpdateScene(items)]
    ensures items != [] ==> (r.outcome.Raised? <==> !reply.success)
    ensures r.outcome != ReturnedNone ==> r.outcome == Raised(UpdateFailureMessage)
  {
    if items == [] then Run([], ReturnedNone)
    else if reply.success then Run([UpdateScene(items)], ReturnedNone)
    else Run([UpdateScene(items)], Raised(UpdateFailureMessage))
  }

  const UpdateFailureMessage := "One or more selected items cannot be updated.\nIf there is another version of this file "
    + "referenced, please check the Alias Reference Manager and remove its reference to enable the update."

  // ---------------------------------------------------------------------------
  // open_file

  /** How `open_file` decided. */
  datatype OpenDecision = FileLocked | CancelledByUser | AsNewStage | AsNewScene

  /** The user is asked only when a file is open or more than one stage exists. */
  predicate Prompts(currentPath: string, stages: int) {
    currentPath != "" || stages > 1
  }

  /**
   * The hook and host calls `open_file` makes, given the decision it took and
   * whether the host's open call succeeded: which notifications and opens
   * happen, and that the stage is selected only after a successful open.
   */
  function OpenTrace(path: string, currentPath: string, stages: int, decision: OpenDecision, success: bool): (t: seq<Effect>)
    ensures |t| >= 1 && t[0] == FileAttemptOpen(path)
    ensures AskDeleteObjects in t <==> decision != FileLocked && (decision != AsNewScene || Prompts(currentPath, stages))
    ensures OpenAsNewStage(path) in t <==> decision == AsNewStage
    ensures OpenAsNewScene(path) in t <==> decision == AsNewScene
    ensures FileClosed(currentPath) in t <==> decision == AsNewStage && currentPath != ""
    ensures StageSelected in t <==> decision in {AsNewStage, AsNewScene} && success
    ensures decision in {AsNewStage, AsNewScene} && success ==> t[|t| - 1] == StageSelected
  {
    match decision
    case FileLocked => [FileAttemptOpen(path)]
    case CancelledByUser => [FileAttemptOpen(path), AskDeleteObjects]
    case AsNewStage =>
      [FileAttemptOpen(path), AskDeleteObjects] + (if currentPath != "" then [FileClosed(currentPath)] else [])
      + [OpenAsNewStage(path)] + (if success then [StageSelected] else [])
    case AsNewScene =>
      [FileAttemptOpen(path)] + (if Prompts(currentPath, stages) then [AskDeleteObjects] else [])
      + [OpenAsNewScene(path)] + (if success then [StageSelected] else [])
  }

  /**
   * `open_file`. `canOpen` is the file-usage hook's answer, `currentPath` and
   * `stages` the host's current path and stage count, `answer` the user's
   * answer if asked, `reply` the host's answer to the open call.
   */
  method OpenFile(path: string, canOpen: bool, currentPath: string, stages: int, answer: Answer, reply: Reply)
    returns (decision: OpenDecision, run: Run)
    ensures run.effects == OpenTrace(path, currentPath, stages, decision, reply.success)
    ensures |run.effects| >= 1 && run.effects[0] == FileAttemptOpen(path)
    ensures decision == FileLocked <==> !canOpen
    ensures AskDeleteObjects in run.effects <==> canOpen && Prompts(currentPath, stages)
    ensures decision == CancelledByUser <==> canOpen && Prompts(currentPath, stages) && answer == Cancel
    ensures decision == AsNewStage <==> canOpen && Prompts(currentPath, stages) && answer == No
    ensures decision == AsNewScene <==>
      canOpen && (!Prompts(currentPath, stages) || (answer != Cancel && answer != No))
    ensures decision in {FileLocked, CancelledByUser} ==>
      run.outcome == ReturnedNone
      && run.effects == [FileAttemptOpen(path)] + (if decision == CancelledByUser then [AskDeleteObjects] else [])
    ensures OpenAsNewStage(path) in run.effects <==> decision == AsNewStage
    ensures OpenAsNewScene(path) in run.effects <==> decision == AsNewScene
    ensures FileClosed(currentPath) in run.effects <==> decision == AsNewStage && currentPath != ""
    ensures StageSelected in run.effects <==> decision in {AsNewStage, AsNewScene} && reply.success
    ensures run.outcome.Raised? <==> decision in {AsNewStage, AsNewScene} && !reply.success
    ensures !run.outcome.Raised? ==> run.outcome == ReturnedNone
    ensures decision == AsNewStage ==>
      run.effects == [FileAttemptOpen(path), AskDeleteObjects]
        + (if currentPath != "" then [FileClosed(currentPath)] else [])
        + [OpenAsNewStage(path)] + (if reply.success then [StageSelected] else [])
    ensures decision == AsNewScene ==>
      run.effects == [FileAttemptOpen(path)] + (if Prompts(currentPath, stages) then [AskDeleteObjects] else [])
        + [OpenAsNewScene(path)] + (if reply.success then [StageSelected] else [])
    ensures decision == AsNewStage && !reply.success ==> run.outcome == Raised("Error opening as new stage the file " + path)
    ensures decision == AsNewScene && !reply.success ==> run.outcome == Raised("Error opening the file " + path)
  {
    var effects := [FileAttemptOpen(path)];
    if !canOpen {
      return FileLocked, Run(effects, ReturnedNone);
    }
    var asNewStage := false;
    if Prompts(currentPath, stages) {
      effects := effects + [AskDeleteObjects];
      if answer == Cancel {
        return CancelledByUser, Run(effects, ReturnedNone);
      }
      if answer == No {
        asNewStage := true;
      }
    }
    if asNewStage {
      decision := AsNewStage;
      assert effects == [FileAttemptOpen(path), AskDeleteObjects];
      // current_file_closed() notifies the hook only when a file is open
      if currentPath != "" {
        effects := effects + [FileClosed(currentPath)];
      }
      effects := effects + [OpenAsNewStage(path)];
      if !reply.success {
        assert effects == OpenTrace(path, currentPath, stages, decision, false);
        return decision, Run(effects, Raised("Error opening as new stage the file " + path));
      }
    } else {
      decision := AsNewScene;
      effects := effects + [OpenAsNewScene(path)];
      if !reply.success {
        assert effects == OpenTrace(path, currentPath, stages, decision, false);
        return decision, Run(effects, Raised("Error opening the file " + path));
      }
    }
    effects := effects + [StageSelected];
    run := Run(effects, ReturnedNone);
  }

}
