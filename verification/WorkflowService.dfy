/** The stored workflows: every definition that gets in is sanitized, so copies keep their definition. */
module Workflows {
  import opened Common
  import opened WorkflowGraph

  datatype Status = DRAFT | ACTIVE | INACTIVE

  datatype Workflow = Workflow(name: string, description: Option<string>, definition: Definition, status: Status, userId: string)

  datatype ErrorCode = VALIDATION_ERROR | WORKFLOW_NOT_FOUND | INTERNAL_ERROR

  datatype Result<+T> = Ok(value: T) | Err(code: ErrorCode)

  /** The characters that JavaScript's trim removes. */
  predicate IsSpace(c: char) {
    var u := c as int;
    (9 <= u <= 13) || u == 32 || u == 0xA0 || u == 0x1680 || (0x2000 <= u <= 0x200A)
    || u == 0x2028 || u == 0x2029 || u == 0x202F || u == 0x205F || u == 0x3000 || u == 0xFEFF
  }

  function Trim(s: string): string {
    if s == [] then []
    else if IsSpace(s[0]) then Trim(s[1..])
    else if IsSpace(s[|s| - 1]) then Trim(s[..|s| - 1])
    else s
  }

  lemma {:induction false} TrimIdempotent(s: string)
    ensures Trim(Trim(s)) == Trim(s)
  {
    if s == [] {
    } else if IsSpace(s[0]) {
      TrimIdempotent(s[1..]);
    } else if IsSpace(s[|s| - 1]) {
      TrimIdempotent(s[..|s| - 1]);
    }
  }

  /** The text between the spaces: what is cut off on either side is all spaces, and no space is left at an end. */
  ghost predicate IsTrimmed(s: string, left: string, t: string, right: string) {
    && s == left + t + right
    && (forall c | c in left || c in right :: IsSpace(c))
    && (t != [] ==> !IsSpace(t[0]) && !IsSpace(t[|t| - 1]))
  }

  lemma {:induction false} TrimCuts(s: string) returns (left: string, right: string)
    ensures IsTrimmed(s, left, Trim(s), right)
  {
    left, right := [], [];
    if s == [] {
    } else if IsSpace(s[0]) {
      left, right := TrimCuts(s[1..]);
      left := [s[0]] + left;
    } else if IsSpace(s[|s| - 1]) {
      left, right := TrimCuts(s[..|s| - 1]);
      right := right + [s[|s| - 1]];
    }
  }

  lemma {:induction false} TrimUnique(s: string, left: string, t: string, right: string)
    requires IsTrimmed(s, left, t, right)
    ensures t == Trim(s)
    decreases |s|
  {
    if s == [] {
    } else if left != [] {
      assert s[0] in left && s[1..] == left[1..] + t + right;
      TrimUnique(s[1..], left[1..], t, right);
    } else if t == [] {
      assert s[0] in right && s[1..] == left + t + right[1..];
      TrimUnique(s[1..], left, t, right[1..]);
    } else if right != [] {
      var rest := right[..|right| - 1];
      assert s[|s| - 1] in right && s[..|s| - 1] == left + t + rest;
      TrimUnique(s[..|s| - 1], left, t, rest);
    } else {
      assert s == t;
    }
  }

  /** Trimming is cutting the spaces off both ends. */
  lemma TrimExactly(s: string, t: string)
    ensures t == Trim(s) <==> exists left, right :: IsTrimmed(s, left, t, right)
  {
    var left, right := TrimCuts(s);
    if l, r :| IsTrimmed(s, l, t, r) {
      TrimUnique(s, l, t, r);
    }
  }

  function TrimOption(s: Option<string>): Option<string> {
    if s.None? then None else Some(Trim(s.value))
  }

  /** What is true of every stored workflow. */
  ghost predicate Stored(w: Workflow) {
    Conforms(w.definition) && Clean(w.definition) && TrimOption(w.description) == w.description
  }

  lemma CreatedIsStored(name: string, description: Option<string>, definition: Definition, status: Status, userId: string)
    requires Conforms(definition)
    ensures Stored(Workflow(Trim(name), TrimOption(description), Sanitize(definition), status, userId))
  {
    SanitizeCleans(definition);
    if description.Some? {
      TrimIdempotent(description.value);
    }
    var s := Sanitize(definition);
    assert forall i | 0 <= i < |s.nodes| :: s.nodes[i].position == definition.nodes[i].position;
  }

  class WorkflowService {
    /** The table, by workflow id. */
    var workflows: map<nat, Workflow>
    var nextId: nat

    ghost predicate Valid()
      reads this
    {
      forall id | id in workflows :: id < nextId && Stored(workflows[id])
    }

    constructor ()
      ensures Valid() && workflows == map[]
    {
      workflows, nextId := map[], 0;
    }

    /** `fails` is a failing database write. */
    method CreateWorkflow(userId: string, name: string, description: Option<string>, definition: Definition,
                          status: Option<Status>, fails: bool)
      returns (r: Result<nat>)
      requires Valid()
      modifies this
      ensures Valid()
      ensures r.Ok? <==> Conforms(definition) && !fails
      ensures r.Err? ==> workflows == old(workflows) && (r.code == VALIDATION_ERROR <==> !Conforms(definition))
      ensures r.Ok? ==>
        && r.value !in old(workflows)
        && workflows == old(workflows)[r.value := Workflow(
             Trim(name), TrimOption(description), Sanitize(definition),
             if status.Some? then status.value else DRAFT, userId)]
    {
      if !Conforms(definition) {
        return Err(VALIDATION_ERROR);
      }
      var sanitized := SanitizeWorkflowDefinition(definition);
      if fails {
        return Err(INTERNAL_ERROR);
      }
      var workflow := Workflow(Trim(name), TrimOption(description), sanitized,
                               if status.Some? then status.value else DRAFT, userId);
      CreatedIsStored(name, description, definition, workflow.status, userId);
      r := Ok(nextId);
      workflows := workflows[nextId := workflow];
      nextId := nextId + 1;
    }

    /** A workflow is visible to its owner only. */
    method GetWorkflowById(id: nat, userId: string) returns (r: Result<Workflow>)
      ensures r == if id in workflows && workflows[id].userId == userId then Ok(workflows[id]) else Err(WORKFLOW_NOT_FOUND)
    {
      if id in workflows && workflows[id].userId == userId {
        return Ok(workflows[id]);
      }
      return Err(WORKFLOW_NOT_FOUND);
    }

    /** Missing fields stay as they are; so does the name if the new one is empty or only spaces. */
    method UpdateWorkflow(id: nat, userId: string, name: Option<string>, description: Option<string>,
                          definition: Option<Definition>, status: Option<Status>, fails: bool)
      returns (r: Result<Workflow>)
      requires Valid()
      modifies this
      ensures Valid()
      ensures r.Err? ==> workflows == old(workflows)
      ensures r.Ok? <==>
        (definition.Some? ==> Conforms(definition.value)) && !fails && id in old(workflows) && old(workflows)[id].userId == userId
      ensures r.Ok? ==>
        && workflows == old(workflows)[id := r.value]
        && r.value == old(workflows)[id].(
             name := if name.Some? && Trim(name.value) != "" then Trim(name.value) else old(workflows)[id].name,
             description := if description.Some? then Some(Trim(description.value)) else old(workflows)[id].description,
             definition := if definition.Some? then Sanitize(definition.value) else old(workflows)[id].definition,
             status := if status.Some? then status.value else old(workflows)[id].status)
    {
      var sanitizedDefinition: Option<Definition> := None;
      if definition.Some? {
        if !Conforms(definition.value) {
          return Err(VALIDATION_ERROR);
        }
        var sanitized := SanitizeWorkflowDefinition(definition.value);
        sanitizedDefinition := Some(sanitized);
      }
      if fails {
        return Err(INTERNAL_ERROR);
      }
      if id !in workflows || workflows[id].userId != userId {
        return Err(WORKFLOW_NOT_FOUND);
      }
      var workflow := workflows[id];
      if name.Some? && Trim(name.value) != "" {
        workflow := workflow.(name := Trim(name.value));
      }
      if description.Some? {
        workflow := workflow.(description := Some(Trim(description.value)));
        TrimIdempotent(description.value);
      }
      if sanitizedDefinition.Some? {
        workflow := workflow.(definition := sanitizedDefinition.value);
        CreatedIsStored("", None, definition.value, DRAFT, userId);
      }
      if status.Some? {
        workflow := workflow.(status := status.value);
      }
      workflows := workflows[id := workflow];
      r := Ok(workflow);
    }

    /** The copy of a stored workflow is a draft with the very same definition. */
    method DuplicateWorkflow(id: nat, userId: string, newName: Option<string>, fails: bool) returns (r: Result<nat>)
      requires Valid()
      modifies this
      ensures Valid()
      ensures r.Ok? <==> id in old(workflows) && old(workflows)[id].userId == userId && !fails
      ensures r.Err? ==> workflows == old(workflows)
      ensures r.Ok? ==>
        && r.value !in old(workflows)
        && workflows.Keys == old(workflows).Keys + {r.value}
        && (forall other | other in old(workflows) :: workflows[other] == old(workflows)[other])
        && var copy, original := workflows[r.value], old(workflows)[id];
           && copy.definition == original.definition
           && copy.description == (if original.description == Some("") then None else original.description)
           && copy.status == DRAFT && copy.userId == userId
           && copy.name == Trim(if newName.Some? && newName.value != "" then newName.value else original.name + " (Copy)")
    {
      var original := GetWorkflowById(id, userId);
      if original.Err? {
        return Err(original.code);
      }
      var name := if newName.Some? && newName.value != "" then newName.value else original.value.name + " (Copy)";
      var description := if original.value.description == Some("") then None else original.value.description;
      SanitizeFixes(original.value.definition);
      r := CreateWorkflow(userId, name, description, original.value.definition, Some(DRAFT), fails);
    }
  }
}
