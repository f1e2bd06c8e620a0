/** Running one tool call: every call is answered under its own id, and a confirm-before tool only parks. */
module Tools {
  import opened Prelude
  import Approvals
  import ApprovalStore
  import Turn
  import Transcript
  import TurnSafety

  /** `parse` is None for arguments the schema rejects; `issues` renders why. */
  datatype ToolDef = ToolDef(confirmBefore: bool, parse: string -> Option<string>, issues: string -> string)

  function DeriveActionId(conversation: string, toolUseId: string): string {
    "act-" + conversation + "-" + toolUseId
  }

  /** The stored form of a call's arguments is whatever JSON they are. */
  function Stored(call: Transcript.ToolCall, json: string -> Approvals.Json): Approvals.StoredCall {
    Approvals.Call(call.id, call.name, json(call.args))
  }

  predicate Parks(registry: map<string, ToolDef>, call: Transcript.ToolCall) {
    call.name in registry && registry[call.name].parse(call.args).Some? && registry[call.name].confirmBefore
  }

  /**
   The step's body.  `executed` is what the tool's execute returns when it is called,
   None when it throws; a thrown error or a failed insert throws out of the step.
   */
  method RunTool(db: ApprovalStore.PendingActions, registry: map<string, ToolDef>, conversation: string,
                 call: Transcript.ToolCall, json: string -> Approvals.Json, expiresAt: int, executed: Option<string>)
    returns (r: Option<Turn.Answer>)
    modifies db
    ensures r.Some? ==> r.value.Result? && forall stored :: TurnSafety.Fits(stored, Some(Turn.RunTool(call)), r.value)
    ensures r.Some? ==> (r.value.parked <==> Parks(registry, call))
    ensures Parks(registry, call) ==>
      var id := DeriveActionId(conversation, call.id);
      if id in old(db.rows) then r.None? && db.rows == old(db.rows)
      else
        && r.Some? && r.value.actionId == Some(id)
        && db.rows == old(db.rows)[id := Approvals.Row(conversation, Stored(call, json), Approvals.Pending, None, expiresAt)]
    ensures !Parks(registry, call) ==> db.rows == old(db.rows)
    ensures call.name !in registry ==> r == Some(Turn.Result(call.id, "unknown tool: " + call.name, false, None))
    ensures call.name in registry && registry[call.name].parse(call.args).None? ==> r.Some?
    ensures call.name in registry && registry[call.name].parse(call.args).Some? && !registry[call.name].confirmBefore ==>
      r == match executed
           case None => None
           case Some(content) => Some(Turn.Result(call.id, content, false, None))
  {
    if call.name !in registry {
      return Some(Turn.Result(call.id, "unknown tool: " + call.name, false, None));
    }
    var def := registry[call.name];
    var parsed := def.parse(call.args);
    if parsed.None? {
      return Some(Turn.Result(call.id, "invalid arguments for " + call.name + " — " + def.issues(call.args), false, None));
    }
    var actionId := DeriveActionId(conversation, call.id);
    if def.confirmBefore {
      var inserted := db.Park(actionId, conversation, Stored(call, json), expiresAt);
      if !inserted { return None; }
      return Some(Turn.Result(call.id, "pending approval, action_id=" + actionId
                              + ": waiting for a household member to confirm — not done yet", true, Some(actionId)));
    }
    match executed {
      case None => return None;
      case Some(content) => return Some(Turn.Result(call.id, content, false, None));
    }
  }

  /** Within a conversation, different calls park under different ids. */
  lemma ActionIdsDiffer(conversation: string, a: string, b: string)
    ensures DeriveActionId(conversation, a) == DeriveActionId(conversation, b) ==> a == b
  {
    var n := |"act-" + conversation + "-"|;
    assert DeriveActionId(conversation, a)[n..] == a && DeriveActionId(conversation, b)[n..] == b;
  }
}
