/** The Shotgun panel's actions on a publish: which ones it offers, and what running one does. */
module SceneActions {
  import opened Wrappers

  /** An action instance: `{"name", "params", "caption", "description"}`. */
  datatype ActionInstance = ActionInstance(name: string, params: Option<string>, caption: string, description: string)

  const OpenFileAction := ActionInstance("open_file", None, "Open File", "Open an image file to start working with.")
  const AddImageAction := ActionInstance("add_image", None, "Add Image...",
    "This will import the selected image file to the canvas.")

  /** The base hook's actions; None when the base class has no `generate_actions`. */
  function Inherited(baseActions: Option<seq<ActionInstance>>): seq<ActionInstance> {
    if baseActions.Some? then baseActions.value else []
  }

  /** `generate_actions`: the base hook's actions, then "open_file", then "add_image", each only when requested. */
  method GenerateActions(baseActions: Option<seq<ActionInstance>>, actions: seq<string>)
    returns (instances: seq<ActionInstance>)
    ensures var base := Inherited(baseActions);
      |instances| == |base| + (if "open_file" in actions then 1 else 0) + (if "add_image" in actions then 1 else 0)
    ensures var base := Inherited(baseActions);
      |instances| >= |base| && instances[..|base|] == base
    ensures OpenFileAction in instances[|Inherited(baseActions)|..] <==> "open_file" in actions
    ensures AddImageAction in instances[|Inherited(baseActions)|..] <==> "add_image" in actions
    ensures var added := instances[|Inherited(baseActions)|..];
      forall k :: 0 <= k < |added| ==> added[k].name in actions && added[k].params.None?
    ensures var added := instances[|Inherited(baseActions)|..];
      forall k :: 0 <= k < |added| ==> added[k] == OpenFileAction || added[k] == AddImageAction
    ensures "open_file" in actions ==> instances[|Inherited(baseActions)|] == OpenFileAction
  {
    var base := Inherited(baseActions);
    instances := base;
    var added: seq<ActionInstance>;
    if "open_file" in actions && "add_image" in actions {
      added := [OpenFileAction, AddImageAction];
    } else if "open_file" in actions {
      added := [OpenFileAction];
    } else if "add_image" in actions {
      added := [AddImageAction];
    } else {
      added := [];
    }
    assert OpenFileAction.name != AddImageAction.name;
    instances := instances + added;
    assert instances[|base|..] == added;
  }

  /** The publish's Shotgun data. */
  datatype SgData = SgData(fields: map<string, string>)

  /** A call the hook issues. */
  datatype Effect =
    | OpenImage(path: string)                                            // sketchbook_api.open_file
    | AddImage(path: string)                                             // sketchbook_api.add_image
    | BaseAction(name: string, params: Option<string>, sgData: SgData)   // the base hook's execute_action

  /**
   * `execute_action`. `publishPath` is the hook's `get_publish_path`;
   * `baseHasMethod` says whether the base class defines `execute_action`.
   */
  function ExecuteAction(name: string, params: Option<string>, sgData: SgData,
                         publishPath: SgData -> string, baseHasMethod: bool): (effects: seq<Effect>)
    ensures |effects| <= 1
    ensures name == "open_file" ==> effects == [OpenImage(publishPath(sgData))]
    ensures name == "add_image" ==> effects == [AddImage(publishPath(sgData))]
    ensures name != "open_file" && name != "add_image" ==>
      (effects == [] <==> !baseHasMethod) && (baseHasMethod ==> effects == [BaseAction(name, params, sgData)])
  {
    if name == "open_file" then [OpenImage(publishPath(sgData))]
    else if name == "add_image" then [AddImage(publishPath(sgData))]
    else if baseHasMethod then [BaseAction(name, params, sgData)]
    else []
  }

  /** One entry of the `actions` list given to `execute_multiple_actions`. */
  datatype ActionRequest = ActionRequest(name: string, params: Option<string>, sgData: SgData)

  /** The effects of running every request in turn. */
  function ExecuteAll(requests: seq<ActionRequest>, publishPath: SgData -> string, baseHasMethod: bool)
    : seq<Effect>
    decreases |requests|
  {
    if requests == [] then []
    else
      var init := requests[..|requests| - 1];
      var last := requests[|requests| - 1];
      ExecuteAll(init, publishPath, baseHasMethod)
        + ExecuteAction(last.name, last.params, last.sgData, publishPath, baseHasMethod)
  }

  /**
   * `execute_multiple_actions`: one `execute_action` per entry, in list order,
   * with that entry's name, params and Shotgun data.
   */
  method ExecuteMultipleActions(requests: seq<ActionRequest>, publishPath: SgData -> string, baseHasMethod: bool)
    returns (dispatched: seq<ActionRequest>, effects: seq<Effect>)
    ensures dispatched == requests
    ensures effects == ExecuteAll(requests, publishPath, baseHasMethod)
  {
    dispatched, effects := [], [];
    for i := 0 to |requests|
      invariant dispatched == requests[..i]
      invariant effects == ExecuteAll(requests[..i], publishPath, baseHasMethod)
    {
      var name := requests[i].name;
      var sgData := requests[i].sgData;
      var params := requests[i].params;
      assert requests[..i + 1][..i] == requests[..i];
      dispatched := dispatched + [ActionRequest(name, params, sgData)];
      effects := effects + ExecuteAction(name, params, sgData, publishPath, baseHasMethod);
    }
    assert requests[..|requests|] == requests;
  }

  /**
   * When the base class can take every other action, each request yields
   * exactly one effect, and the k-th effect is that of the k-th request.
   */
  lemma {:induction false} OneEffectPerRequest(requests: seq<ActionRequest>, publishPath: SgData -> string)
    ensures |ExecuteAll(requests, publishPath, true)| == |requests|
    ensures forall k :: 0 <= k < |requests| ==>
      ExecuteAll(requests, publishPath, true)[k] == ExecuteAction(requests[k].name, requests[k].params, requests[k].sgData, publishPath, true)[0]
    decreases |requests|
  {
    if requests != [] {
      var init := requests[..|requests| - 1];
      OneEffectPerRequest(init, publishPath);
      var last := requests[|requests| - 1];
      assert |ExecuteAction(last.name, last.params, last.sgData, publishPath, true)| == 1;
      forall k | 0 <= k < |init| ensures requests[k] == init[k] {}
    }
  }

  /** Running a list never issues more calls than it has entries. */
  lemma {:induction false} AtMostOneEffectEach(requests: seq<ActionRequest>, publishPath: SgData -> string,
                                               baseHasMethod: bool)
    ensures |ExecuteAll(requests, publishPath, baseHasMethod)| <= |requests|
    decreases |requests|
  {
    if requests != [] {
      AtMostOneEffectEach(requests[..|requests| - 1], publishPath, baseHasMethod);
    }
  }
}
