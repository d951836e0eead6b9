/**
 * Background agents and their manager (agent/agent_manager.py). Each session has at most one
 * `BackgroundAgent`; the `AgentManager` keeps them in a table keyed by session id, bounded by
 * `MaxConcurrentAgents`, and evicts agents idle for longer than `AgentTimeoutSeconds`.
 * Times are abstract integers in seconds passed in as `now`. The asyncio task is reduced to its
 * lifecycle (`TaskState`) and the response queue to a sequence; `wait_for_user_response` is
 * split at its `await` into `BeginWait` and `EndWait`.
 */
module AgentManagement {
  import opened Wrappers
  import Json
  import opened Models

  const MaxConcurrentAgents: nat := 10
  /** AGENT_TIMEOUT_MINUTES, in seconds. */
  const AgentTimeoutSeconds: int := 30 * 60

  /** The agent's asyncio task as far as `cancel` can see it. */
  datatype TaskState =
    | NoTask      // `task is None`
    | Active      // created and not done
    | Cancelling  // `task.cancel()` was called; the event loop has not finished it yet
    | Done        // finished in the event loop

  /** `task.cancel()` when the task exists and is not done; anything else is left as it is. */
  function CancelTask(t: TaskState): (r: TaskState)
    ensures t == Active ==> r == Cancelling
    ensures t != Active ==> r == t
  {
    if t == Active then Cancelling else t
  }

  /** `submit_response`'s gate: a pending action whose id is `actionId`. */
  predicate AwaitsAction(s: AgentState, actionId: string) {
    s.pendingAction.Some? && s.pendingAction.value.id == actionId
  }

  class BackgroundAgent {
    const sessionId: string
    var task: TaskState
    var responseQueue: seq<Json.Value>
    var state: AgentState
    var cancelRequested: bool

    constructor (sessionId: string, now: int)
      ensures this.sessionId == sessionId && task == NoTask && responseQueue == []
      ensures state == NewAgentState(sessionId, Idle, now) && !cancelRequested
    {
      this.sessionId := sessionId;
      task := NoTask;
      responseQueue := [];
      state := NewAgentState(sessionId, Idle, now);
      cancelRequested := false;
    }

    /** `wait_for_user_response` up to its `await`: the agent now waits on `action`. */
    method BeginWait(action: PendingAction, now: int)
      modifies this`state
      ensures state == old(state).(status := WaitingUser, pendingAction := Some(action), lastActivity := now)
    {
      state := state.(status := WaitingUser, pendingAction := Some(action), lastActivity := now);
    }

    /**
     * `wait_for_user_response` after its `await`: a queued response is taken and the agent runs
     * again; with the queue still empty at the deadline it times out into ERROR, without touching
     * `last_activity`. Either way the pending action is cleared.
     */
    method EndWait(now: int) returns (response: Option<Json.Value>)
      modifies this`state, this`responseQueue
      ensures old(responseQueue) != [] ==>
        && response == Some(old(responseQueue)[0])
        && responseQueue == old(responseQueue)[1..]
        && state == old(state).(status := Running, pendingAction := None, lastActivity := now)
      ensures old(responseQueue) == [] ==>
        && response == None && responseQueue == []
        && state == old(state).(status := Error, pendingAction := None)
      ensures state.pendingAction == None
    {
      if responseQueue != [] {
        response := Some(responseQueue[0]);
        responseQueue := responseQueue[1..];
        state := state.(status := Running, pendingAction := None, lastActivity := now);
      } else {
        response := None;
        state := state.(status := Error, pendingAction := None);
      }
    }

    /** `submit_response`: queued and accepted only for the pending action's own id. */
    method SubmitResponse(actionId: string, response: Json.Value) returns (accepted: bool)
      modifies this`responseQueue
      ensures accepted <==> AwaitsAction(state, actionId)
      ensures responseQueue == if accepted then old(responseQueue) + [response] else old(responseQueue)
    {
      if state.pendingAction.Some? && state.pendingAction.value.id == actionId {
        responseQueue := responseQueue + [response];
        return true;
      }
      return false;
    }

    /** The part of `start_agent_task` done to the agent: RUNNING, active at `now`, with a new task. */
    method RunTask(now: int)
      modifies this`state, this`task
      ensures state == old(state).(status := Running, lastActivity := now) && task == Active
    {
      state := state.(status := Running, lastActivity := now);
      task := Active;
    }

    /** `cancel`: records the request and cancels a live task. */
    method Cancel()
      modifies this`cancelRequested, this`task
      ensures cancelRequested && task == CancelTask(old(task))
    {
      cancelRequested := true;
      if task == Active {
        task := Cancelling;
      }
    }
  }

  /** `ids` without the ones outside `keep`, order kept. */
  function Restrict(ids: seq<string>, keep: set<string>): (r: seq<string>)
    ensures |r| <= |ids|
    ensures forall i :: 0 <= i < |r| ==> r[i] in keep
  {
    if ids == [] then []
    else if ids[0] in keep then [ids[0]] + Restrict(ids[1..], keep)
    else Restrict(ids[1..], keep)
  }

  /** `ids` lists every element of `keys` exactly once: a dict's key order. */
  predicate Lists(ids: seq<string>, keys: set<string>)
    decreases |ids|
  {
    if ids == [] then keys == {} else ids[0] in keys && Lists(ids[1..], keys - {ids[0]})
  }

  lemma {:induction false} ListsSpec(ids: seq<string>, keys: set<string>)
    requires Lists(ids, keys)
    ensures forall k :: k in keys <==> k in ids
    ensures |keys| == |ids|
    decreases |ids|
  {
    if ids != [] {
      ListsSpec(ids[1..], keys - {ids[0]});
      assert forall k :: k in ids <==> k == ids[0] || k in ids[1..];
    }
  }

  /** Inserting a new key appends it to the order. */
  lemma {:induction false} ListsAppend(ids: seq<string>, keys: set<string>, k: string)
    requires Lists(ids, keys) && k !in keys
    ensures Lists(ids + [k], keys + {k})
    decreases |ids|
  {
    if ids == [] {
      assert [k][1..] == [];
      assert keys + {k} - {k} == {};
    } else {
      ListsAppend(ids[1..], keys - {ids[0]}, k);
      assert (ids + [k])[1..] == ids[1..] + [k];
      assert (keys + {k}) - {ids[0]} == (keys - {ids[0]}) + {k};
    }
  }

  /** Deleting keys deletes them from the order and keeps the rest in place. */
  lemma {:induction false} ListsRestrict(ids: seq<string>, keys: set<string>, keep: set<string>)
    requires Lists(ids, keys)
    ensures Lists(Restrict(ids, keep), keys * keep)
    decreases |ids|
  {
    if ids != [] {
      ListsRestrict(ids[1..], keys - {ids[0]}, keep);
      var rest := Restrict(ids[1..], keep);
      if ids[0] in keep {
        assert ([ids[0]] + rest)[1..] == rest;
        assert (keys * keep) - {ids[0]} == (keys - {ids[0]}) * keep;
      } else {
        assert keys * keep == (keys - {ids[0]}) * keep;
      }
    }
  }

  lemma {:induction false} RestrictTwice(ids: seq<string>, a: set<string>, b: set<string>)
    ensures Restrict(Restrict(ids, a), b) == Restrict(ids, a * b)
  {
    if ids != [] {
      RestrictTwice(ids[1..], a, b);
    }
  }

  /** An agent is evicted when its last activity lies more than the timeout before `now`. */
  predicate Expired(s: AgentState, now: int) {
    s.lastActivity < now - AgentTimeoutSeconds
  }

  /** The states that survive a cleanup pass at `now`. */
  function Evict(states: map<string, AgentState>, now: int): (r: map<string, AgentState>)
    ensures r.Keys <= states.Keys
    ensures forall k :: k in r ==> r[k] == states[k] && !Expired(r[k], now)
    ensures forall k :: k in states && !Expired(states[k], now) ==> k in r
  {
    map k | k in states && !Expired(states[k], now) :: states[k]
  }

  /** One `update_agent_state` keyword argument: a field of AgentState, or a name it lacks. */
  datatype StateUpdate =
    | SetSessionId(sessionId: string)
    | SetStatus(status: AgentStatus)
    | SetPendingAction(pendingAction: Option<PendingAction>)
    | SetProgressMessage(progressMessage: Option<string>)
    | SetLastActivity(lastActivity: int)
    | Other(name: string)

  /** `setattr` for one keyword argument when `hasattr` allows it. */
  function ApplyUpdate(s: AgentState, u: StateUpdate): AgentState {
    match u
    case SetSessionId(v) => s.(sessionId := v)
    case SetStatus(v) => s.(status := v)
    case SetPendingAction(v) => s.(pendingAction := v)
    case SetProgressMessage(v) => s.(progressMessage := v)
    case SetLastActivity(v) => s.(lastActivity := v)
    case Other(_) => s
  }

  /** The keyword arguments applied in order. */
  function ApplyUpdates(s: AgentState, us: seq<StateUpdate>): AgentState
    decreases |us|
  {
    if us == [] then s else ApplyUpdates(ApplyUpdate(s, us[0]), us[1..])
  }

  function KnownUpdates(us: seq<StateUpdate>): (r: seq<StateUpdate>)
    ensures forall i :: 0 <= i < |r| ==> !r[i].Other?
  {
    if us == [] then []
    else if us[0].Other? then KnownUpdates(us[1..])
    else [us[0]] + KnownUpdates(us[1..])
  }

  /** Names the state does not have are ignored: only the known fields take effect. */
  lemma {:induction false} UnknownNamesIgnored(s: AgentState, us: seq<StateUpdate>)
    ensures ApplyUpdates(s, us) == ApplyUpdates(s, KnownUpdates(us))
    decreases |us|
  {
    if us != [] {
      UnknownNamesIgnored(ApplyUpdate(s, us[0]), us[1..]);
      if !us[0].Other? {
        assert ([us[0]] + KnownUpdates(us[1..]))[1..] == KnownUpdates(us[1..]);
      }
    }
  }

  /** A field that no update names keeps its value, for each of the five fields. */
  lemma {:induction false} UnnamedFieldsKept(s: AgentState, us: seq<StateUpdate>)
    ensures (forall i :: 0 <= i < |us| ==> !us[i].SetSessionId?) ==> ApplyUpdates(s, us).sessionId == s.sessionId
    ensures (forall i :: 0 <= i < |us| ==> !us[i].SetStatus?) ==> ApplyUpdates(s, us).status == s.status
    ensures (forall i :: 0 <= i < |us| ==> !us[i].SetPendingAction?) ==> ApplyUpdates(s, us).pendingAction == s.pendingAction
    ensures (forall i :: 0 <= i < |us| ==> !us[i].SetProgressMessage?) ==>
      ApplyUpdates(s, us).progressMessage == s.progressMessage
    ensures (forall i :: 0 <= i < |us| ==> !us[i].SetLastActivity?) ==> ApplyUpdates(s, us).lastActivity == s.lastActivity
    decreases |us|
  {
    if us != [] {
      UnnamedFieldsKept(ApplyUpdate(s, us[0]), us[1..]);
    }
  }

  class AgentManager {
    var agents: map<string, BackgroundAgent>
    /** The table's insertion order, which Python's dict keeps. */
    var order: seq<string>
    var cleanupRunning: bool

    /** Each agent is filed under its own session id, the order lists each key once, and the table is bounded. */
    ghost predicate Valid()
      reads this
    {
      && (forall k :: k in agents ==> agents[k].sessionId == k)
      && Lists(order, agents.Keys)
      && |agents| <= MaxConcurrentAgents
    }

    function AgentObjects(): set<BackgroundAgent>
      reads this
    {
      agents.Values
    }

    /** The agent filed under `id`, as a frame. */
    function Slot(id: string): set<BackgroundAgent>
      reads this
    {
      if id in agents then {agents[id]} else {}
    }

    /** Every session's agent state. */
    function States(): map<string, AgentState>
      reads this, AgentObjects()
    {
      map k | k in agents :: agents[k].state
    }

    /** `[self._agents[sid].state for sid in ids if sid in self._agents]`. */
    function StatesFor(ids: seq<string>): (r: seq<AgentState>)
      reads this, AgentObjects()
      ensures |r| == |Restrict(ids, agents.Keys)|
      ensures forall i :: 0 <= i < |r| ==> r[i] == agents[Restrict(ids, agents.Keys)[i]].state
    {
      if ids == [] then []
      else if ids[0] in agents then [agents[ids[0]].state] + StatesFor(ids[1..])
      else StatesFor(ids[1..])
    }

    constructor ()
      ensures Valid() && agents == map[] && order == [] && !cleanupRunning
    {
      agents := map[];
      order := [];
      cleanupRunning := false;
    }

    /** `start`: launches the cleanup loop once. */
    method Start()
      modifies this`cleanupRunning
      ensures cleanupRunning
    {
      if !cleanupRunning {
        cleanupRunning := true;
      }
    }

    /** `get_agent`. */
    method GetAgent(id: string) returns (r: Option<BackgroundAgent>)
      ensures r.Some? <==> id in agents
      ensures r.Some? ==> r.value == agents[id] && r.value.sessionId == id
      requires Valid()
    {
      if id in agents {
        return Some(agents[id]);
      }
      return None;
    }

    /** `get_or_create_agent`: the existing agent, a new one while there is room, else an error. */
    method GetOrCreateAgent(id: string, now: int) returns (r: Result<BackgroundAgent, string>)
      requires Valid()
      modifies this`agents, this`order
      ensures Valid()
      ensures id in old(agents) ==> r == Success(old(agents)[id]) && agents == old(agents) && order == old(order)
      ensures id !in old(agents) && |old(agents)| >= MaxConcurrentAgents ==>
        r.Failure? && agents == old(agents) && order == old(order)
      ensures id !in old(agents) && |old(agents)| < MaxConcurrentAgents ==>
        && r.Success? && fresh(r.value)
        && agents == old(agents)[id := r.value] && order == old(order) + [id]
        && r.value.state == NewAgentState(id, Idle, now) && r.value.task == NoTask
        && r.value.responseQueue == [] && !r.value.cancelRequested
      ensures r.Success? ==> id in agents && r.value == agents[id]
    {
      if id !in agents {
        if |agents| >= MaxConcurrentAgents {
          return Failure("Maximum concurrent agents (10) reached");
        }
        var agent := new BackgroundAgent(id, now);
        ListsAppend(order, agents.Keys, id);
        assert agents[id := agent].Keys == agents.Keys + {id};
        agents := agents[id := agent];
        order := order + [id];
      }
      return Success(agents[id]);
    }

    /** `start_agent_task`: the session's agent runs a fresh task with `last_activity = now`. */
    method StartAgentTask(id: string, now: int) returns (r: Result<BackgroundAgent, string>)
      requires Valid()
      modifies this`agents, this`order, Slot(id)`state, Slot(id)`task
      ensures Valid()
      ensures r.Failure? <==> id !in old(agents) && |old(agents)| >= MaxConcurrentAgents
      ensures r.Failure? ==> agents == old(agents) && order == old(order)
      ensures order == if r.Failure? || id in old(agents) then old(order) else old(order) + [id]
      ensures r.Success? && id in old(agents) ==>
        && r.value == old(agents[id]) && agents == old(agents)
        && r.value.responseQueue == old(agents[id].responseQueue)
        && r.value.cancelRequested == old(agents[id].cancelRequested)
      ensures r.Success? && id !in old(agents) ==>
        && fresh(r.value) && agents == old(agents)[id := r.value]
        && r.value.responseQueue == [] && !r.value.cancelRequested
      ensures r.Success? ==>
        && id in agents && r.value == agents[id] && r.value.task == Active
        && r.value.state == (if id in old(agents) then old(agents[id].state) else NewAgentState(id, Idle, now))
                              .(status := Running, lastActivity := now)
      ensures forall k :: k in old(agents) && k != id ==> k in agents && agents[k] == old(agents[k]) && agents[k].state == old(agents[k].state)
    {
      ghost var st0 := if id in agents then agents[id].state else NewAgentState(id, Idle, now);
      r := GetOrCreateAgent(id, now);
      if r.Success? {
        assert r.value.state == st0;
        r.value.RunTask(now);
      }
    }

    /**
     * `update_agent_state`: the named fields that exist are set in order, then `last_activity`
     * becomes `now`; an unknown session is left alone.
     */
    method UpdateAgentState(id: string, updates: seq<StateUpdate>, now: int)
      requires Valid()
      modifies Slot(id)`state
      ensures id in agents ==> agents[id].state == ApplyUpdates(old(agents[id].state), updates).(lastActivity := now)
      ensures forall k :: k in agents && k != id ==> agents[k].state == old(agents[k].state)
    {
      if id in agents {
        var agent := agents[id];
        var i := 0;
        while i < |updates|
          invariant 0 <= i <= |updates|
          invariant ApplyUpdates(agent.state, updates[i..]) == ApplyUpdates(old(agent.state), updates)
        {
          assert updates[i..][1..] == updates[i + 1..];
          agent.state := ApplyUpdate(agent.state, updates[i]);
          i := i + 1;
        }
        agent.state := agent.state.(lastActivity := now);
      }
    }

    /** `cancel_agent`: a known agent is cancelled and marked COMPLETED. */
    method CancelAgent(id: string) returns (found: bool)
      requires Valid()
      modifies Slot(id)`state, Slot(id)`cancelRequested, Slot(id)`task
      ensures found <==> id in agents
      ensures found ==>
        && agents[id].state == old(agents[id].state).(status := Completed)
        && agents[id].cancelRequested && agents[id].task == CancelTask(old(agents[id].task))
      ensures forall k :: k in agents && k != id ==> agents[k].state == old(agents[k].state)
    {
      if id in agents {
        var agent := agents[id];
        agent.Cancel();
        agent.state := agent.state.(status := Completed);
        return true;
      }
      return false;
    }

    /** `submit_user_response`: routed to the session's agent; false for an unknown session. */
    method SubmitUserResponse(id: string, actionId: string, response: Json.Value) returns (accepted: bool)
      requires Valid()
      modifies Slot(id)`responseQueue
      ensures accepted <==> id in old(agents) && AwaitsAction(old(agents[id].state), actionId)
      ensures id in agents ==> agents[id].state == old(agents[id].state)
      ensures id in agents ==>
        agents[id].responseQueue == if accepted then old(agents[id].responseQueue) + [response] else old(agents[id].responseQueue)
    {
      if id in agents {
        accepted := agents[id].SubmitResponse(actionId, response);
        return;
      }
      return false;
    }

    /** `get_all_states`, in table order. */
    method GetAllStates() returns (states: seq<AgentState>)
      requires Valid()
      ensures |states| == |agents|
      ensures states == StatesFor(order)
    {
      OrderCoversTable();
      states := [];
      var i := 0;
      while i < |order|
        invariant 0 <= i <= |order|
        invariant states + StatesFor(order[i..]) == StatesFor(order)
      {
        states := AppendState(states, i);
        i := i + 1;
      }
      assert order[i..] == [];
    }

    /** One step of `get_all_states`: the state filed under `order[i]` is appended. */
    method AppendState(states: seq<AgentState>, i: nat) returns (r: seq<AgentState>)
      requires Valid() && i < |order|
      requires states + StatesFor(order[i..]) == StatesFor(order)
      ensures r + StatesFor(order[i + 1..]) == StatesFor(order)
    {
      assert order[i..][1..] == order[i + 1..];
      ListsSpec(order, agents.Keys);
      assert order[i] in agents;
      r := states + [agents[order[i]].state];
    }

    lemma OrderCoversTable()
      requires Valid()
      ensures Restrict(order, agents.Keys) == order
      ensures |order| == |agents|
    {
      ListsSpec(order, agents.Keys);
      RestrictAll(order, agents.Keys);
    }

    /** The states of the requested sessions that exist, in request order (`get_states_for_sessions`). */
    lemma {:induction false} StatesForConcat(a: seq<string>, b: seq<string>)
      ensures StatesFor(a + b) == StatesFor(a) + StatesFor(b)
    {
      if a != [] {
        assert (a + b)[1..] == a[1..] + b;
        StatesForConcat(a[1..], b);
      } else {
        assert a + b == b;
      }
    }

    /** `stop`: stops the cleanup loop, cancels every agent and empties the table. */
    method Stop()
      requires Valid()
      modifies this`agents, this`order, this`cleanupRunning, AgentObjects()`cancelRequested, AgentObjects()`task
      ensures Valid() && agents == map[] && order == [] && !cleanupRunning
      ensures forall a :: a in old(AgentObjects()) ==> a.cancelRequested && a.task == CancelTask(old(a.task))
    {
      var remaining := AgentObjects();
      while remaining != {}
        invariant remaining <= AgentObjects() && agents == old(agents)
        invariant forall a :: a in AgentObjects() && a !in remaining ==> a.cancelRequested && a.task == CancelTask(old(a.task))
        invariant forall a :: a in remaining ==> a.task == old(a.task)
        decreases remaining
      {
        var agent :| agent in remaining;
        agent.Cancel();
        remaining := remaining - {agent};
      }
      cleanupRunning := false;
      agents := map[];
      order := [];
    }

    /** The body of `_cleanup_loop`'s inner loop for one session id. */
    method EvictIfExpired(id: string, now: int) returns (evicted: bool)
      requires Valid()
      modifies this`agents, this`order, Slot(id)`cancelRequested, Slot(id)`task
      ensures Valid()
      ensures evicted <==> id in old(agents) && Expired(old(agents[id].state), now)
      ensures agents == if evicted then old(agents) - {id} else old(agents)
      ensures order == Restrict(old(order), agents.Keys)
      ensures evicted ==> old(agents[id]).cancelRequested && old(agents[id]).task == CancelTask(old(agents[id].task))
      ensures !evicted && id in agents ==>
        agents[id].cancelRequested == old(agents[id].cancelRequested) && agents[id].task == old(agents[id].task)
    {
      OrderCoversTable();
      if id in agents && agents[id].state.lastActivity < now - AgentTimeoutSeconds {
        agents[id].Cancel();
        ListsRestrict(order, agents.Keys, agents.Keys - {id});
        assert agents.Keys * (agents.Keys - {id}) == agents.Keys - {id};
        agents := agents - {id};
        order := Restrict(order, agents.Keys);
        return true;
      }
      return false;
    }

    /**
     * One pass of `_cleanup_loop` at time `now`: every agent idle past the timeout is cancelled
     * and removed; the others stay, in their order, with their cancel flag and task untouched.
     */
    method Cleanup(now: int)
      requires Valid()
      modifies this`agents, this`order, AgentObjects()`cancelRequested, AgentObjects()`task
      ensures Valid()
      ensures States() == Evict(old(States()), now)
      ensures order == Restrict(old(order), agents.Keys)
      ensures forall k :: k in agents ==> k in old(agents) && agents[k] == old(agents[k])
      ensures forall k :: k in agents ==>
        agents[k].cancelRequested == old(agents[k].cancelRequested) && agents[k].task == old(agents[k].task)
      ensures forall k :: k in old(agents) && Expired(old(agents[k].state), now) ==>
        old(agents[k]).cancelRequested && old(agents[k]).task == CancelTask(old(agents[k].task))
    {
      ghost var table := agents;
      ghost var st := States();
      ghost var flags := map k | k in agents :: agents[k].cancelRequested;
      ghost var tasks := map k | k in agents :: agents[k].task;
      OrderCoversTable();
      var ids := order;
      assert Lists(ids, table.Keys);
      ghost var live := SweepAll(ids, now, table, st, flags, tasks, old(order));
      SweptAll(ids, now, table, st, flags, tasks, old(order), live);
    }

    /** Cleanup's loop over the snapshot `ids` of the session ids. */
    method SweepAll(ids: seq<string>, now: int, ghost table: map<string, BackgroundAgent>,
                    ghost st: map<string, AgentState>, ghost flags: map<string, bool>,
                    ghost tasks: map<string, TaskState>, ghost order0: seq<string>) returns (ghost live: set<string>)
      requires Swept(ids, 0, now, table, st, flags, tasks, order0, table.Keys)
      modifies this`agents, this`order, table.Values`cancelRequested, table.Values`task
      ensures Swept(ids, |ids|, now, table, st, flags, tasks, order0, live)
    {
      live := table.Keys;
      var i := 0;
      while i < |ids|
        invariant i <= |ids| && Swept(ids, i, now, table, st, flags, tasks, order0, live)
      {
        live := SweepStep(ids, i, now, table, st, flags, tasks, order0, live);
        i := i + 1;
      }
    }

    /**
     * After the whole snapshot: exactly the expired agents are gone, each cancelled, and the
     * others keep their cancel flag and task.
     */
    lemma SweptAll(ids: seq<string>, now: int, table: map<string, BackgroundAgent>, st: map<string, AgentState>,
                   flags: map<string, bool>, tasks: map<string, TaskState>, order0: seq<string>, live: set<string>)
      requires Lists(ids, table.Keys) && Swept(ids, |ids|, now, table, st, flags, tasks, order0, live)
      ensures Valid() && States() == Evict(st, now) && order == Restrict(order0, agents.Keys)
      ensures forall k :: k in agents ==> k in table && agents[k] == table[k]
      ensures forall k :: k in agents ==> agents[k].cancelRequested == flags[k] && agents[k].task == tasks[k]
      ensures forall k :: k in table && Expired(st[k], now) ==>
        table[k].cancelRequested && table[k].task == CancelTask(tasks[k])
    {
      ListsSpec(ids, table.Keys);
      EvictExact(st, live, ids, now);
    }

    /**
     * Cleanup's loop invariant after the first `i` ids of the snapshot `ids`: the table `table`
     * with states `st`, cancel flags `flags` and tasks `tasks` has lost exactly the expired agents
     * among them, each cancelled; the agents still present are untouched.
     */
    ghost predicate Swept(ids: seq<string>, i: nat, now: int, table: map<string, BackgroundAgent>,
                          st: map<string, AgentState>, flags: map<string, bool>, tasks: map<string, TaskState>,
                          order0: seq<string>, live: set<string>)
      reads this, table.Values
    {
      && Valid() && SweptTable(ids, i, now, table, st, order0, live, agents, order)
      && (forall k :: k in table ==> table[k].state == st[k])
      && Cancelled(table, flags, tasks)
    }

    /**
     * Of the agents of `table`, the ones still present keep their first cancel flag and task
     * (`flags`, `tasks`); the ones already evicted are cancelled.
     */
    ghost predicate Cancelled(table: map<string, BackgroundAgent>, flags: map<string, bool>, tasks: map<string, TaskState>)
      reads this, table.Values
    {
      && flags.Keys == table.Keys && tasks.Keys == table.Keys
      && (forall k :: k in table && k in agents ==> table[k].cancelRequested == flags[k] && table[k].task == tasks[k])
      && (forall k :: k in table && k !in agents ==> table[k].cancelRequested && table[k].task == CancelTask(tasks[k]))
    }

    /** EvictIfExpired keeps `Cancelled` for a snapshot `table` of the agents. */
    method SweepEvict(id: string, now: int, ghost table: map<string, BackgroundAgent>, ghost flags: map<string, bool>,
                      ghost tasks: map<string, TaskState>) returns (evicted: bool)
      requires Valid() && Cancelled(table, flags, tasks)
      requires forall k :: k in table ==> table[k].sessionId == k
      requires forall k :: k in agents ==> k in table && agents[k] == table[k]
      modifies this`agents, this`order, Slot(id)`cancelRequested, Slot(id)`task
      ensures Valid() && Cancelled(table, flags, tasks)
      ensures forall k :: k in table ==> table[k].state == old(table[k].state)
      ensures evicted <==> id in old(agents) && Expired(old(agents[id].state), now)
      ensures agents == if evicted then old(agents) - {id} else old(agents)
      ensures order == Restrict(old(order), agents.Keys)
    {
      assert forall k :: k in table && k != id ==> table[k] !in Slot(id);
      label Before:
      evicted := EvictIfExpired(id, now);
      forall k | k in table
        ensures table[k].state == old(table[k].state)
        ensures k in agents ==> table[k].cancelRequested == flags[k] && table[k].task == tasks[k]
        ensures k !in agents ==> table[k].cancelRequested && table[k].task == CancelTask(tasks[k])
      {
        if k != id {
          assert table[k] !in old@Before(Slot(id));
        } else if id !in old(agents) {
          assert old@Before(Slot(id)) == {};
        }
      }
    }

    /** One iteration of Cleanup's loop, with the ghost bookkeeping of `Swept`. */
    method SweepStep(ids: seq<string>, i: nat, now: int, ghost table: map<string, BackgroundAgent>,
                     ghost st: map<string, AgentState>, ghost flags: map<string, bool>,
                     ghost tasks: map<string, TaskState>, ghost order0: seq<string>, ghost live: set<string>)
      returns (ghost live': set<string>)
      requires i < |ids| && Swept(ids, i, now, table, st, flags, tasks, order0, live)
      modifies this`agents, this`order, table.Values`cancelRequested, table.Values`task
      ensures Swept(ids, i + 1, now, table, st, flags, tasks, order0, live')
    {
      var id := ids[i];
      ghost var agents0, order1 := agents, order;
      var evicted := SweepEvict(id, now, table, flags, tasks);
      live' := agents.Keys;
      SweptTableStep(ids, i, now, table, st, order0, live, agents0, order1, evicted, agents, order);
    }
  }

  /** The part of Cleanup's loop invariant that is about the table and order as values. */
  ghost predicate SweptTable(ids: seq<string>, i: nat, now: int, table: map<string, BackgroundAgent>,
                             st: map<string, AgentState>, order0: seq<string>, live: set<string>,
                             agents: map<string, BackgroundAgent>, order: seq<string>)
  {
    && agents.Keys == live && live <= table.Keys && st.Keys == table.Keys
    && order == Restrict(order0, live)
    && (forall k :: k in table ==> table[k].sessionId == k)
    && (forall k :: k in live ==> agents[k] == table[k])
    && (forall k :: k in table && k !in live ==> Expired(st[k], now))
    && (forall j :: 0 <= j < i && j < |ids| && ids[j] in live ==> !Expired(st[ids[j]], now))
  }

  /** Evicting `ids[i]` exactly when it is expired extends `SweptTable` by one id. */
  lemma SweptTableStep(ids: seq<string>, i: nat, now: int, table: map<string, BackgroundAgent>,
                       st: map<string, AgentState>, order0: seq<string>, live: set<string>,
                       agents: map<string, BackgroundAgent>, order: seq<string>, expired: bool,
                       agents': map<string, BackgroundAgent>, order': seq<string>)
    requires i < |ids| && SweptTable(ids, i, now, table, st, order0, live, agents, order)
    requires expired <==> ids[i] in agents && Expired(st[ids[i]], now)
    requires agents' == if expired then agents - {ids[i]} else agents
    requires order' == Restrict(order, agents'.Keys)
    ensures SweptTable(ids, i + 1, now, table, st, order0, agents'.Keys, agents', order')
  {
    RestrictTwice(order0, live, agents'.Keys);
    assert live * agents'.Keys == agents'.Keys;
    KeptStayFresh(ids, i, live, agents'.Keys, st, now);
  }

  lemma KeptStayFresh(ids: seq<string>, i: nat, before: set<string>, after: set<string>, st: map<string, AgentState>, now: int)
    requires i < |ids| && after <= before <= st.Keys
    requires forall j :: 0 <= j < i && ids[j] in before ==> !Expired(st[ids[j]], now)
    requires ids[i] in after ==> !Expired(st[ids[i]], now)
    ensures forall j :: 0 <= j < i + 1 && ids[j] in after ==> !Expired(st[ids[j]], now)
  {
  }

  /** A pass over every key that drops exactly the expired ones leaves `Evict`'s result. */
  lemma EvictExact(st: map<string, AgentState>, live: set<string>, ids: seq<string>, now: int)
    requires live <= st.Keys && forall k :: k in st ==> k in ids
    requires forall k :: k in st && k !in live ==> Expired(st[k], now)
    requires forall j :: 0 <= j < |ids| && ids[j] in live ==> !Expired(st[ids[j]], now)
    ensures Evict(st, now) == map k | k in live :: st[k]
  {
    forall k | k in live
      ensures !Expired(st[k], now)
    {
      var j :| 0 <= j < |ids| && ids[j] == k;
    }
  }

  lemma {:induction false} RestrictAll(ids: seq<string>, keep: set<string>)
    requires forall k :: k in ids ==> k in keep
    ensures Restrict(ids, keep) == ids
  {
    if ids != [] {
      RestrictAll(ids[1..], keep);
    }
  }
}
