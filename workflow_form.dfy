/** The new-workflow form: name, description, trigger and a list of action objects, the action
    list edits, and the replacement of the whole form by an AI suggestion. */
module WorkflowForm {
  import opened Wrappers
  import opened Seqs

  /** One action row. The page edits an existing row by assigning to its `description`, so a
      row is an object, not a value. */
  class WorkflowAction {
    var kind: string
    var description: string

    constructor (kind: string, description: string)
      ensures this.kind == kind && this.description == description
    {
      this.kind := kind;
      this.description := description;
    }
  }

  /** A workflow recommendation as the suggestion endpoint returns it; `actions` may be absent. */
  datatype Recommendation = Recommendation(name: string, description: string, trigger: string,
                                           actions: Option<seq<WorkflowAction>>)

  /** How the suggestion request ends: the fetch or the JSON parsing throws, or a parsed body
      whose `recommendations` list may be absent. */
  datatype SuggestReply = SuggestFailed | Suggestions(recommendations: Option<seq<Recommendation>>)

  /** No object appears twice in a list of rows. */
  predicate Distinct(rows: seq<WorkflowAction>)
  {
    forall i, j :: 0 <= i < j < |rows| ==> rows[i] != rows[j]
  }

  /** The create button: disabled while saving, or while the name or the trigger is empty (an
      untrimmed check, so spaces enable it). */
  function SubmitDisabled(isPending: bool, name: string, trigger: string): (r: bool)
    ensures isPending ==> r
    ensures name == "" || trigger == "" ==> r
    ensures !isPending && |name| > 0 && |trigger| > 0 ==> !r
  {
    isPending || name == "" || trigger == ""
  }

  class NewWorkflowForm {
    var name: string
    var description: string
    var trigger: string
    var actions: seq<WorkflowAction>
    var suggesting: bool
    /** The names of the tools loaded when the page mounted. */
    var toolNames: seq<string>

    /** Rows are distinct objects, and the busy flag is down between turns. */
    predicate Valid()
      reads this
    {
      Distinct(actions) && !suggesting
    }

    /** The descriptions of the rows, in order. */
    function Descriptions(): (r: seq<string>)
      reads this, actions
      ensures |r| == |actions|
      ensures forall k :: 0 <= k < |r| ==> r[k] == actions[k].description
    {
      DescriptionsOf(actions)
    }

    constructor ()
      ensures Valid()
      ensures name == "" && description == "" && trigger == "" && actions == []
      ensures !suggesting && toolNames == []
    {
      name, description, trigger, actions := "", "", "", [];
      suggesting, toolNames := false, [];
    }

    /** The tools query: the names are kept when the query returns data. */
    method ToolsLoaded(data: Option<seq<string>>)
      requires Valid()
      modifies this
      ensures Valid()
      ensures toolNames == (if data.Some? then data.value else old(toolNames))
      ensures name == old(name) && description == old(description) && trigger == old(trigger)
      ensures actions == old(actions) && suggesting == old(suggesting)
    {
      if data.Some? {
        toolNames := data.value;
      }
    }

    /** `handleAddAction`: a new empty action row at the end. */
    method AddAction()
      requires Valid()
      modifies this
      ensures Valid()
      ensures |actions| == |old(actions)| + 1 && actions[..|old(actions)|] == old(actions)
      ensures fresh(actions[|old(actions)|])
      ensures actions[|old(actions)|].kind == "action" && actions[|old(actions)|].description == ""
      ensures name == old(name) && description == old(description) && trigger == old(trigger)
      ensures suggesting == old(suggesting) && toolNames == old(toolNames)
    {
      var row := new WorkflowAction("action", "");
      actions := actions + [row];
    }

    /** `handleRemoveAction(index)`: exactly row `index` goes, the rest keep their order. */
    method RemoveAction(index: nat)
      requires Valid() && index < |actions|
      modifies this
      ensures Valid()
      ensures actions == RemoveAt(old(actions), index)
      ensures name == old(name) && description == old(description) && trigger == old(trigger)
      ensures suggesting == old(suggesting) && toolNames == old(toolNames)
    {
      actions := RemoveAt(actions, index);
    }

    /** `handleActionChange(index, text)`: the existing row object is edited in place; the list
        holds the same objects and no other row's text changes. */
    method ChangeAction(index: nat, text: string)
      requires Valid() && index < |actions|
      modifies actions[index]
      ensures Valid()
      ensures actions == old(actions)
      ensures Descriptions() == old(Descriptions())[index := text]
      ensures actions[index].kind == old(actions[index].kind)
    {
      var row := actions[index];
      row.description := text;
    }

    /** `getAISuggestions`. With no tools it only alerts. Otherwise it sends the tool names, shows
        the busy flag until the reply is handled, and replaces the whole form with the first
        recommendation when there is one. */
    method GetSuggestions(reply: SuggestReply)
      returns (alerted: bool, request: Option<seq<string>>, busyWhileWaiting: bool)
      requires Valid()
      requires reply.Suggestions? && reply.recommendations.Some? && |reply.recommendations.value| > 0
               && reply.recommendations.value[0].actions.Some?
               ==> Distinct(reply.recommendations.value[0].actions.value)
      modifies this
      ensures Valid()
      ensures toolNames == old(toolNames)
      ensures old(toolNames) == [] ==>
                alerted && request == None && !busyWhileWaiting
                && name == old(name) && description == old(description) && trigger == old(trigger)
                && actions == old(actions)
      ensures old(toolNames) != [] ==> !alerted && request == Some(toolNames) && busyWhileWaiting
      ensures old(toolNames) != [] && Replaces(reply) ==>
                var rec := reply.recommendations.value[0];
                name == rec.name && description == rec.description && trigger == rec.trigger
                && actions == rec.actions.GetOr([])
      ensures !Replaces(reply) ==>
                name == old(name) && description == old(description) && trigger == old(trigger)
                && actions == old(actions)
    {
      if toolNames == [] {
        return true, None, false;
      }
      alerted := false;
      suggesting := true;
      request := Some(toolNames);
      busyWhileWaiting := suggesting;
      match reply {
        case Suggestions(Some(recs)) =>
          if |recs| > 0 {
            var rec := recs[0];
            name, description, trigger := rec.name, rec.description, rec.trigger;
            actions := rec.actions.GetOr([]);
          }
        case _ =>
      }
      suggesting := false;
    }
  }

  function DescriptionsOf(rows: seq<WorkflowAction>): (r: seq<string>)
    reads rows
    ensures |r| == |rows|
    ensures forall k :: 0 <= k < |r| ==> r[k] == rows[k].description
  {
    if rows == [] then [] else DescriptionsOf(rows[..|rows| - 1]) + [rows[|rows| - 1].description]
  }

  /** A reply replaces the form exactly when it carries a non-empty recommendation list. */
  predicate Replaces(reply: SuggestReply)
  {
    reply.Suggestions? && reply.recommendations.Some? && |reply.recommendations.value| > 0
  }
}
