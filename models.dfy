/**
 * Agent state records (agent/models.py): the status enum, the pending action awaiting a user,
 * and the serialisation of an agent's state to a JSON-style dict and back.
 * Timestamps are abstract integers and are serialised as JSON numbers.
 */
module Models {
  import opened Wrappers
  import opened Json

  /** Status of a background agent; `Value()` is the enum's string value. */
  datatype AgentStatus = Idle | Running | WaitingUser | Completed | Error {
    function Value(): string {
      match this
      case Idle => "idle"
      case Running => "running"
      case WaitingUser => "waiting_user"
      case Completed => "completed"
      case Error => "error"
    }
  }

  /** `AgentStatus(value)`: the member whose value is `v`; anything else is rejected. */
  function StatusFromValue(v: string): (r: Option<AgentStatus>)
    ensures forall st: AgentStatus :: r == Some(st) <==> st.Value() == v
  {
    if v == "idle" then Some(Idle)
    else if v == "running" then Some(Running)
    else if v == "waiting_user" then Some(WaitingUser)
    else if v == "completed" then Some(Completed)
    else if v == "error" then Some(Error)
    else None
  }

  /**
   * An action waiting for a user response. `kind` is the Python field `type`, annotated as one of
   * "approval_required", "question", "error"; the annotation is not enforced at run time.
   */
  datatype PendingAction = PendingAction(
    id: string,
    kind: string,
    title: string,
    description: string,
    options: Option<seq<string>>)

  /** `PendingAction(id, type, title, description)`, with `options` left at its default. */
  function NewPendingAction(id: string, kind: string, title: string, description: string): (a: PendingAction)
    ensures a.options == None
    ensures a.id == id && a.kind == kind && a.title == title && a.description == description
  {
    PendingAction(id, kind, title, description, None)
  }

  datatype AgentState = AgentState(
    sessionId: string,
    status: AgentStatus,
    pendingAction: Option<PendingAction>,
    progressMessage: Option<string>,
    lastActivity: int)

  /** `AgentState(session_id, status)` with the remaining fields at their defaults. */
  function NewAgentState(sessionId: string, status: AgentStatus, now: int): (s: AgentState)
    ensures s.pendingAction == None && s.progressMessage == None
    ensures s.sessionId == sessionId && s.status == status && s.lastActivity == now
  {
    AgentState(sessionId, status, None, None, now)
  }

  function OptionalString(o: Option<string>): Value {
    match o
    case Some(s) => Str(s)
    case None => Null
  }

  function StringList(xs: seq<string>): (v: Value)
    ensures v.Arr? && |v.items| == |xs|
    ensures forall i :: 0 <= i < |xs| ==> v.items[i] == Str(xs[i])
  {
    Arr(seq(|xs|, i requires 0 <= i < |xs| => Str(xs[i])))
  }

  function PendingActionToDict(a: PendingAction): Value {
    Obj(map[
      "id" := Str(a.id),
      "type" := Str(a.kind),
      "title" := Str(a.title),
      "description" := Str(a.description),
      "options" := match a.options case Some(xs) => StringList(xs) case None => Null
    ])
  }

  /** `AgentState.to_dict`. */
  function ToDict(s: AgentState): (d: Value)
    ensures d.Obj? && d.fields.Keys == {"session_id", "status", "pending_action", "progress_message", "last_activity"}
    ensures d.fields["status"] == Str(s.status.Value())
    ensures d.fields["pending_action"] == Null <==> s.pendingAction.None?
    ensures s.pendingAction.Some? ==>
      d.fields["pending_action"].Obj? &&
      d.fields["pending_action"].fields.Keys == {"id", "type", "title", "description", "options"}
  {
    Obj(map[
      "session_id" := Str(s.sessionId),
      "status" := Str(s.status.Value()),
      "pending_action" := match s.pendingAction case Some(a) => PendingActionToDict(a) case None => Null,
      "progress_message" := OptionalString(s.progressMessage),
      "last_activity" := Num(s.lastActivity)
    ])
  }

  /** Why `from_dict` raises. */
  datatype DictError =
    | NotADict                  // `data.get` on something that is not a dict
    | MissingKey(key: string)   // KeyError
    | UnknownStatus(v: Value)   // ValueError from `AgentStatus(...)`
    | BadPendingAction          // TypeError from `PendingAction(**pending)`
    | BadTimestamp              // the `last_activity` value cannot be read back
    | WrongType(key: string)    // a field holds a JSON value of another type

  predicate AllStrings(items: seq<Value>) {
    forall i :: 0 <= i < |items| ==> items[i].Str?
  }

  /** `PendingAction(**pending)` for a truthy `pending`. */
  function PendingActionFromDict(pending: Value): (r: Result<PendingAction, DictError>)
    ensures r.Success? ==> pending.Obj? && pending.fields.Keys >= {"id", "type", "title", "description"}
    ensures r.Success? ==> pending.fields.Keys <= {"id", "type", "title", "description", "options"}
  {
    if !pending.Obj? then Failure(BadPendingAction)
    else
      var f := pending.fields;
      if !(f.Keys <= {"id", "type", "title", "description", "options"}) then Failure(BadPendingAction)
      else if !({"id", "type", "title", "description"} <= f.Keys) then Failure(BadPendingAction)
      else if !(f["id"].Str? && f["type"].Str? && f["title"].Str? && f["description"].Str?) then Failure(BadPendingAction)
      else
        var options := Get(f, "options");
        if options.Some? && !(options.value.Null? || (options.value.Arr? && AllStrings(options.value.items))) then
          Failure(BadPendingAction)
        else
          var opts: Option<seq<string>> :=
            if options.None? || options.value.Null? then None
            else Some(seq(|options.value.items|, i requires 0 <= i < |options.value.items| => options.value.items[i].s));
          Success(PendingAction(f["id"].s, f["type"].s, f["title"].s, f["description"].s, opts))
  }

  /**
   * `AgentState.from_dict`, raising in the order Python evaluates the constructor's arguments:
   * session_id, status, pending_action, progress_message, last_activity.
   */
  function FromDict(data: Value): (r: Result<AgentState, DictError>)
    ensures !data.Obj? ==> r == Failure(NotADict)
    ensures data.Obj? && "session_id" !in data.fields ==> r == Failure(MissingKey("session_id"))
    ensures data.Obj? && "session_id" in data.fields && "status" !in data.fields ==> r.Failure?
    ensures data.Obj? && "last_activity" !in data.fields ==> r.Failure?
    ensures (data.Obj? && "status" in data.fields &&
             (!data.fields["status"].Str? || StatusFromValue(data.fields["status"].s).None?)) ==> r.Failure?
    ensures (r.Success? && data.Obj? &&
             ("pending_action" !in data.fields || data.fields["pending_action"] == Null)) ==> r.value.pendingAction == None
    ensures r.Success? && data.Obj? && "progress_message" !in data.fields ==> r.value.progressMessage == None
  {
    if !data.Obj? then Failure(NotADict)
    else
      var f := data.fields;
      var pending := Get(f, "pending_action");
      if "session_id" !in f then Failure(MissingKey("session_id"))
      else if !f["session_id"].Str? then Failure(WrongType("session_id"))
      else if "status" !in f then Failure(MissingKey("status"))
      else if !f["status"].Str? || StatusFromValue(f["status"].s).None? then Failure(UnknownStatus(f["status"]))
      else
        var action: Result<Option<PendingAction>, DictError> :=
          if pending.None? || !Truthy(pending.value) then Success(None)
          else match PendingActionFromDict(pending.value)
            case Success(a) => Success(Some(a))
            case Failure(e) => Failure(e);
        if action.Failure? then Failure(action.error)
        else
          var progress := Get(f, "progress_message");
          if progress.Some? && !(progress.value.Null? || progress.value.Str?) then Failure(WrongType("progress_message"))
          else if "last_activity" !in f then Failure(MissingKey("last_activity"))
          else if !f["last_activity"].Num? then Failure(BadTimestamp)
          else
            Success(AgentState(
              f["session_id"].s,
              StatusFromValue(f["status"].s).value,
              action.value,
              if progress.Some? && progress.value.Str? then Some(progress.value.s) else None,
              f["last_activity"].n))
  }

  lemma {:induction false} PendingActionRoundTrip(a: PendingAction)
    ensures PendingActionFromDict(PendingActionToDict(a)) == Success(a)
  {
    var d := PendingActionToDict(a);
    assert d.fields.Keys == {"id", "type", "title", "description", "options"};
    match a.options {
      case None =>
      case Some(xs) =>
        var items := StringList(xs).items;
        assert AllStrings(items);
        assert seq(|items|, i requires 0 <= i < |items| => items[i].s) == xs;
    }
  }

  /** `from_dict(to_dict(s))` gives `s` back, for every state. */
  lemma {:induction false} FromDictToDict(s: AgentState)
    ensures FromDict(ToDict(s)) == Success(s)
  {
    var d := ToDict(s);
    assert StatusFromValue(s.status.Value()) == Some(s.status);
    match s.pendingAction {
      case None =>
      case Some(a) =>
        PendingActionRoundTrip(a);
        assert Truthy(d.fields["pending_action"]);
    }
  }

  /** No information is lost by `to_dict`: two states with the same dict are the same state. */
  lemma ToDictInjective(s: AgentState, t: AgentState)
    requires ToDict(s) == ToDict(t)
    ensures s == t
  {
    FromDictToDict(s);
    FromDictToDict(t);
  }
}
