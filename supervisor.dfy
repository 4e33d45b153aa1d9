/**
 * The supervisor of the agent fleet: its registry of location agents, the
 * allocation of tasks to the least-loaded suitable agent, the decision to
 * offload to the cloud, the health monitor and the queue of tasks waiting
 * for capacity.
 *
 * Wall-clock time, CPU and memory readings and the outcome of an HTTP
 * dispatch are parameters. Each background loop is one tick method.
 */
module Supervisor {

  import opened Wrappers
  import opened Dicts
  import opened Selection
  import opened Clamp

  const ACTIVE := "active"
  const INACTIVE := "inactive"
  const ERROR := "error"

  /** The default `resource_threshold` of the allocator. */
  const DEFAULT_RESOURCE_THRESHOLD := 0.7
  /** Seconds without a heartbeat after which the monitor demotes an agent. */
  const HEARTBEAT_TIMEOUT := 30.0
  /** Load shed by every agent on each monitor tick. */
  const LOAD_DECAY := 0.01
  /** Load added to an agent by each successful dispatch. */
  const DISPATCH_LOAD := 0.1
  /** Age in seconds after which a task whose dispatch failed is dropped. */
  const QUEUE_EXPIRY := 300.0
  /** Offload thresholds, in percent. */
  const CPU_LIMIT := 70.0
  const MEMORY_LIMIT := 80.0

  datatype Priority = Low | Medium | High | Critical

  datatype Agent = Agent(
    id: string,
    location: string,
    endpoint: string,
    status: string,
    lastSeen: real,
    load: real,
    capabilities: Option<seq<string>>)

  datatype Task = Task(
    id: string,
    query: string,
    location: Option<string>,
    priority: Priority,
    maxLatency: real,
    createdAt: real)

  /** The supervisor's `agents` dict, keyed by agent id. */
  type Registry = Dict<string, Agent>

  /**
   * How a dispatch to an agent's `/execute` route ends. `Refused`: the
   * request failed or the reply was not a success status, before any load
   * was added. `UnreadableReply`: a success status whose body is not JSON,
   * which fails after the load was already raised.
   */
  datatype DispatchOutcome = Delivered | Refused | UnreadableReply

  // ---------------------------------------------------------------------
  // TaskAllocator.allocate_task
  // ---------------------------------------------------------------------

  predicate Available(a: Agent, threshold: real)
  {
    a.status == ACTIVE && a.load < threshold
  }

  /** Python truthiness of an optional string: neither None nor "". */
  predicate Truthy(s: Option<string>)
  {
    s.Some? && s.value != ""
  }

  /** The task names a location and some available agent is at it. */
  ghost predicate LocationServed(task: Task, agents: Registry, threshold: real)
  {
    && Truthy(task.location)
    && exists id :: id in agents.entries && Available(agents.entries[id], threshold)
                    && agents.entries[id].location == task.location.value
  }

  /**
   * The agents that allocate_task chooses among: the available ones,
   * narrowed to the task's location when that location is served.
   */
  ghost predicate Candidate(task: Task, agents: Registry, threshold: real, id: string)
  {
    && id in agents.entries
    && Available(agents.entries[id], threshold)
    && (LocationServed(task, agents, threshold) ==> agents.entries[id].location == task.location.value)
  }

  /**
   * Two-tier selection: the least-loaded available agent at the task's
   * location if there is one, else the least-loaded available agent.
   * Ties go to the agent registered first (dict order).
   */
  function AllocateTask(task: Task, agents: Registry, threshold: real): (r: Option<string>)
    requires WellFormed(agents)
    ensures r.None? <==> forall id :: id in agents.entries ==> !Available(agents.entries[id], threshold)
    ensures r.Some? ==> Candidate(task, agents, threshold, r.value)
    ensures r.Some? ==> forall id :: Candidate(task, agents, threshold, id) ==>
                          agents.entries[r.value].load <= agents.entries[id].load
    ensures r.Some? ==> forall i, j ::
              (0 <= i < j < |agents.order| && agents.order[j] == r.value
               && Candidate(task, agents, threshold, agents.order[i])) ==>
              agents.entries[r.value].load < agents.entries[agents.order[i]].load
  {
    var m := agents.entries;
    var avail := (id: string) => id in m && Available(m[id], threshold);
    var load := (id: string) => if id in m then m[id].load else 0.0;
    var general := FirstMin(agents.order, avail, load);
    if general.None? then
      AllNotEligible(agents, avail);
      None
    else if Truthy(task.location) then
      var atLoc := (id: string) => id in m && Available(m[id], threshold) && m[id].location == task.location.value;
      var local := FirstMin(agents.order, atLoc, load);
      if local.Some? then
        PickIsCandidate(task, agents, threshold, atLoc, load, local.value);
        Some(agents.order[local.value])
      else
        AllNotEligible(agents, atLoc);
        PickIsCandidate(task, agents, threshold, avail, load, general.value);
        Some(agents.order[general.value])
    else
      PickIsCandidate(task, agents, threshold, avail, load, general.value);
      Some(agents.order[general.value])
  }

  /** What FirstMin says about positions in `order`, restated about the dict's keys. */
  lemma AllNotEligible(agents: Registry, eligible: string -> bool)
    requires WellFormed(agents)
    requires forall i :: 0 <= i < |agents.order| ==> !eligible(agents.order[i])
    ensures forall id :: id in agents.entries ==> !eligible(id)
  {
    forall id | id in agents.entries
      ensures !eligible(id)
    {
      var i :| 0 <= i < |agents.order| && agents.order[i] == id;
    }
  }

  lemma PickIsCandidate(task: Task, agents: Registry, threshold: real,
                        eligible: string -> bool, load: string -> real, p: nat)
    requires WellFormed(agents)
    requires p < |agents.order| && eligible(agents.order[p])
    requires forall id :: eligible(id) <==> Candidate(task, agents, threshold, id)
    requires forall id :: id in agents.entries ==> load(id) == agents.entries[id].load
    requires forall i :: 0 <= i < |agents.order| && eligible(agents.order[i]) ==>
               load(agents.order[p]) <= load(agents.order[i])
    requires forall i :: 0 <= i < p && eligible(agents.order[i]) ==>
               load(agents.order[p]) < load(agents.order[i])
    ensures var r := agents.order[p];
      && Candidate(task, agents, threshold, r)
      && (forall id :: Candidate(task, agents, threshold, id) ==>
            agents.entries[r].load <= agents.entries[id].load)
      && (forall i, j ::
            (0 <= i < j < |agents.order| && agents.order[j] == r
             && Candidate(task, agents, threshold, agents.order[i])) ==>
            agents.entries[r].load < agents.entries[agents.order[i]].load)
  {
    var r := agents.order[p];
    forall id | Candidate(task, agents, threshold, id)
      ensures agents.entries[r].load <= agents.entries[id].load
    {
      var i :| 0 <= i < |agents.order| && agents.order[i] == id;
    }
    forall i, j | 0 <= i < j < |agents.order| && agents.order[j] == r
                  && Candidate(task, agents, threshold, agents.order[i])
      ensures agents.entries[r].load < agents.entries[agents.order[i]].load
    {
      assert j == p;
    }
  }

  /** A kitchen task falls back to the office agent when the only kitchen agent is saturated. */
  lemma SaturatedLocationFallsBack()
    ensures var kitchen := Agent("k", "kitchen", "http://k", ACTIVE, 0.0, 0.9, None);
      var office := Agent("o", "office", "http://o", ACTIVE, 0.0, 0.2, None);
      var agents := Dict(["k", "o"], map["k" := kitchen, "o" := office]);
      var task := Task("t", "q", Some("kitchen"), Medium, 5.0, 0.0);
      WellFormed(agents) && AllocateTask(task, agents, DEFAULT_RESOURCE_THRESHOLD) == Some("o")
  {
    var kitchen := Agent("k", "kitchen", "http://k", ACTIVE, 0.0, 0.9, None);
    var office := Agent("o", "office", "http://o", ACTIVE, 0.0, 0.2, None);
    var agents := Dict(["k", "o"], map["k" := kitchen, "o" := office]);
    var task := Task("t", "q", Some("kitchen"), Medium, 5.0, 0.0);
    assert "k" != "o";
    assert WellFormed(agents);
    var r := AllocateTask(task, agents, DEFAULT_RESOURCE_THRESHOLD);
    assert Available(office, DEFAULT_RESOURCE_THRESHOLD);
    assert !LocationServed(task, agents, DEFAULT_RESOURCE_THRESHOLD);
    assert r.Some? && Candidate(task, agents, DEFAULT_RESOURCE_THRESHOLD, r.value);
  }

  // ---------------------------------------------------------------------
  // should_offload_to_cloud
  // ---------------------------------------------------------------------

  /** The ids whose agent has status "active". */
  function ActiveIds(agents: Registry): (s: set<string>)
    ensures forall id :: id in s <==> id in agents.entries && agents.entries[id].status == ACTIVE
  {
    set id | id in agents.entries && agents.entries[id].status == ACTIVE
  }

  /**
   * Offload when the host is busy (CPU above 70 percent or memory above 80
   * percent) or no agent is active at all.
   */
  predicate ShouldOffload(cpuPercent: real, memoryPercent: real, agents: Registry)
  {
    cpuPercent > CPU_LIMIT || memoryPercent > MEMORY_LIMIT || |ActiveIds(agents)| == 0
  }

  lemma ShouldOffloadIff(cpuPercent: real, memoryPercent: real, agents: Registry)
    ensures ShouldOffload(cpuPercent, memoryPercent, agents) <==>
      (cpuPercent > 70.0 || memoryPercent > 80.0
       || forall id :: id in agents.entries ==> agents.entries[id].status != ACTIVE)
  {
    if forall id :: id in agents.entries ==> agents.entries[id].status != ACTIVE {
      assert ActiveIds(agents) == {};
    } else {
      var id :| id in agents.entries && agents.entries[id].status == ACTIVE;
      assert id in ActiveIds(agents);
    }
  }

  /**
   * A task that cannot be allocated is queued only when some agent is
   * active: every active agent is then at or above the threshold.
   */
  lemma {:induction false} QueuedOnlyWhenSaturated(task: Task, agents: Registry, threshold: real,
                                                  cpuPercent: real, memoryPercent: real)
    requires WellFormed(agents)
    requires AllocateTask(task, agents, threshold).None?
    requires !ShouldOffload(cpuPercent, memoryPercent, agents)
    ensures exists id :: id in agents.entries && agents.entries[id].status == ACTIVE
    ensures forall id :: id in agents.entries && agents.entries[id].status == ACTIVE ==>
              agents.entries[id].load >= threshold
  {
    ShouldOffloadIff(cpuPercent, memoryPercent, agents);
  }

  // ---------------------------------------------------------------------
  // Per-agent updates: the monitor pass and a dispatch
  // ---------------------------------------------------------------------

  /** What one monitor pass does to one agent: only status and load change. */
  function Monitored(a: Agent, now: real): (r: Agent)
    ensures r == a.(status := r.status, load := r.load)
    ensures now - a.lastSeen > HEARTBEAT_TIMEOUT ==> r.status == INACTIVE
    ensures now - a.lastSeen <= HEARTBEAT_TIMEOUT ==> r.status == a.status
    ensures r.load >= 0.0
    ensures a.load >= 0.0 ==> r.load <= a.load
    ensures a.load >= LOAD_DECAY ==> r.load == a.load - LOAD_DECAY
    ensures a.load < LOAD_DECAY ==> r.load == 0.0
  {
    var a' := if now - a.lastSeen > HEARTBEAT_TIMEOUT then a.(status := INACTIVE) else a;
    a'.(load := Max(a'.load - LOAD_DECAY, 0.0))
  }

  /** The registry after one monitor pass: same keys in the same order. */
  function MonitorAll(agents: Registry, now: real): (r: Registry)
    requires WellFormed(agents)
    ensures WellFormed(r) && r.order == agents.order && r.entries.Keys == agents.entries.Keys
    ensures forall id :: id in r.entries ==> r.entries[id] == Monitored(agents.entries[id], now)
  {
    Dict(agents.order, map id | id in agents.entries :: Monitored(agents.entries[id], now))
  }

  /** The registry once the monitor pass has visited the first `i` agents in order. */
  ghost function PartlyMonitored(agents: Registry, now: real, i: nat): Registry
    requires WellFormed(agents) && i <= |agents.order|
  {
    Dict(agents.order, map id | id in agents.entries ::
      if id in agents.order[..i] then Monitored(agents.entries[id], now) else agents.entries[id])
  }

  lemma MonitorStep(agents: Registry, now: real, i: nat)
    requires WellFormed(agents) && i < |agents.order|
    ensures var id := agents.order[i];
      && id in PartlyMonitored(agents, now, i).entries
      && PartlyMonitored(agents, now, i).entries[id := Monitored(agents.entries[id], now)]
         == PartlyMonitored(agents, now, i + 1).entries
  {
    var id := agents.order[i];
    assert id !in agents.order[..i];
    assert agents.order[..i + 1] == agents.order[..i] + [id];
  }

  lemma MonitorDone(agents: Registry, now: real)
    requires WellFormed(agents)
    ensures PartlyMonitored(agents, now, |agents.order|) == MonitorAll(agents, now)
  {
    assert agents.order[..|agents.order|] == agents.order;
  }

  /**
   * What `execute_task` does to the chosen agent, by outcome of the
   * dispatch: only status and load change. The load is raised, capped at
   * 1, once a success status came back; any failure marks the agent "error".
   */
  function Dispatched(a: Agent, outcome: DispatchOutcome): (r: Agent)
    ensures r == a.(status := r.status, load := r.load)
    ensures outcome.Delivered? ==> r.status == a.status
    ensures !outcome.Delivered? ==> r.status == ERROR
    ensures outcome.Refused? ==> r.load == a.load
    ensures !outcome.Refused? ==> r.load <= 1.0
    ensures !outcome.Refused? && a.load <= 1.0 ==> r.load >= a.load
    ensures !outcome.Refused? && a.load <= 1.0 - DISPATCH_LOAD ==> r.load == a.load + DISPATCH_LOAD
    ensures !outcome.Refused? && a.load > 1.0 - DISPATCH_LOAD ==> r.load == 1.0
  {
    match outcome
    case Delivered => a.(load := Min(a.load + DISPATCH_LOAD, 1.0))
    case Refused => a.(status := ERROR)
    case UnreadableReply => a.(load := Min(a.load + DISPATCH_LOAD, 1.0), status := ERROR)
  }

  /**
   * Every load lies in [0, 1]: the registry invariant. The monitor and
   * dispatch keep it; registration keeps it only for a record whose own
   * load is in range, since the registered record is stored as sent.
   */
  ghost predicate LoadsInRange(agents: Registry)
  {
    forall id :: id in agents.entries ==> 0.0 <= agents.entries[id].load <= 1.0
  }

  lemma MonitorKeepsLoadsInRange(agents: Registry, now: real)
    requires WellFormed(agents) && LoadsInRange(agents)
    ensures LoadsInRange(MonitorAll(agents, now))
  {
  }

  lemma DispatchKeepsLoadsInRange(agents: Registry, id: string, outcome: DispatchOutcome)
    requires WellFormed(agents) && LoadsInRange(agents) && id in agents.entries
    ensures LoadsInRange(Put(agents, id, Dispatched(agents.entries[id], outcome)))
  {
  }

  /** A registered record whose own load is in [0, 1] keeps every load in range. */
  lemma RegisterKeepsLoadsInRange(agents: Registry, agent: Agent, now: real)
    requires WellFormed(agents) && LoadsInRange(agents) && 0.0 <= agent.load <= 1.0
    ensures LoadsInRange(Put(agents, agent.id, agent.(lastSeen := now)))
  {
  }

  /** A registered record with load 5 puts a load out of range into the registry. */
  lemma RegisterCanBreakLoadsInRange(now: real)
    ensures var a := Agent("x", "office", "http://x", ACTIVE, 0.0, 5.0, None);
      !LoadsInRange(Put(Empty(), a.id, a.(lastSeen := now)))
  {
    var a := Agent("x", "office", "http://x", ACTIVE, 0.0, 5.0, None);
    assert Put(Empty(), a.id, a.(lastSeen := now)).entries["x"].load == 5.0;
  }

  /**
   * Neither the monitor nor a dispatch ever makes an agent "active": only
   * registration does. The supervisor has no heartbeat route, so an agent
   * once demoted stays demoted until it registers again.
   */
  lemma NoReactivation(a: Agent, now: real, outcome: DispatchOutcome)
    ensures Monitored(a, now).status == ACTIVE ==> a.status == ACTIVE
    ensures Dispatched(a, outcome).status == ACTIVE ==> a.status == ACTIVE
  {
  }

  /**
   * After a monitor pass, no agent silent for more than the timeout can be
   * allocated.
   */
  lemma StaleAgentsNotAllocated(task: Task, agents: Registry, threshold: real, now: real)
    requires WellFormed(agents)
    ensures var r := AllocateTask(task, MonitorAll(agents, now), threshold);
      r.Some? ==> r.value in agents.entries && now - agents.entries[r.value].lastSeen <= HEARTBEAT_TIMEOUT
  {
  }

  // ---------------------------------------------------------------------
  // The task queue
  // ---------------------------------------------------------------------

  /** Pop the head and append it to the tail. */
  function Rotate<T>(q: seq<T>): (r: seq<T>)
    ensures |r| == |q| && multiset(r) == multiset(q)
  {
    if q == [] then []
    else
      assert q == [q[0]] + q[1..];
      q[1..] + [q[0]]
  }

  /** The queue after `k` ticks that each send the head to the back. */
  function Rotations<T>(q: seq<T>, k: nat): (r: seq<T>)
  {
    if k == 0 then q else Rotate(Rotations(q, k - 1))
  }

  /** Re-queued tasks are never lost or duplicated, however many ticks pass. */
  lemma {:induction false} RotationsKeepTasks<T>(q: seq<T>, k: nat)
    ensures |Rotations(q, k)| == |q| && multiset(Rotations(q, k)) == multiset(q)
  {
    if k > 0 {
      RotationsKeepTasks(q, k - 1);
    }
  }

  /**
   * After `k` re-queueing ticks the queue is `q` shifted left by `k`: task
   * `q[k]` is at the head, so every waiting task reaches the head within
   * `|q|` ticks and after `|q|` ticks the queue is back where it started.
   */
  lemma {:induction false} RotationsShift<T>(q: seq<T>, k: nat)
    requires k <= |q|
    ensures Rotations(q, k) == q[k..] + q[..k]
  {
    if k > 0 {
      RotationsShift(q, k - 1);
      ShiftStep(q, k);
    }
  }

  /** One more tick moves the shift point one place further. */
  lemma ShiftStep<T>(q: seq<T>, k: nat)
    requires 0 < k <= |q|
    ensures Rotate(q[k - 1..] + q[..k - 1]) == q[k..] + q[..k]
  {
    var prev := q[k - 1..] + q[..k - 1];
    assert prev[1..] == q[k..] + q[..k - 1];
    assert q[..k] == q[..k - 1] + [q[k - 1]];
  }

  lemma RotationsReturn<T>(q: seq<T>)
    ensures Rotations(q, |q|) == q
  {
    RotationsShift(q, |q|);
  }

  /** What `submit_task` did with a task. */
  datatype Submission =
    | Completed(agent: string)
    | DispatchFailed(agent: string)
    | Offloaded
    | Queued(taskId: string)

  /** What one tick of `process_task_queue` did. */
  datatype QueueStep =
    | Idle
    | Processed(taskId: string, agent: string)
    | RequeuedNoCapacity(taskId: string)
    | RequeuedAfterFailure(taskId: string, agent: string)
    | ExpiredAfterFailure(taskId: string, agent: string)

  // ---------------------------------------------------------------------
  // SupervisorAgent
  // ---------------------------------------------------------------------

  class SupervisorAgent {
    const resourceThreshold: real
    var agents: Registry
    var taskQueue: seq<Task>

    ghost predicate Valid()
      reads this
    {
      WellFormed(agents)
    }

    constructor (resourceThreshold: real)
      ensures Valid()
      ensures this.resourceThreshold == resourceThreshold
      ensures agents.entries == map[] && taskQueue == []
    {
      this.resourceThreshold := resourceThreshold;
      agents := Empty();
      taskQueue := [];
    }

    /** The `/register` route: store the record under its id, stamped with `now`. */
    method RegisterAgent(agent: Agent, now: real)
      requires Valid()
      modifies this
      ensures Valid()
      ensures agents == Put(old(agents), agent.id, agent.(lastSeen := now))
      ensures agents.entries == old(agents.entries)[agent.id := agent.(lastSeen := now)]
      ensures agent.id in old(agents.entries) ==> agents.order == old(agents.order)
      ensures agent.id !in old(agents.entries) ==> agents.order == old(agents.order) + [agent.id]
      ensures taskQueue == old(taskQueue)
    {
      var stamped := agent.(lastSeen := now);
      agents := Put(agents, agent.id, stamped);
    }

    /**
     * `execute_task`: the dispatch outcome is a parameter. Once a success
     * status came back the agent's load goes up by 0.1, capped at 1; if the
     * call then fails, or failed before, the agent is marked "error" and
     * the call fails.
     */
    method ExecuteTask(agentId: string, task: Task, outcome: DispatchOutcome) returns (ok: bool)
      requires Valid() && agentId in agents.entries
      modifies this
      ensures Valid() && ok == outcome.Delivered?
      ensures agents.order == old(agents.order)
      ensures agents.entries == old(agents.entries)[agentId := Dispatched(old(agents.entries)[agentId], outcome)]
      ensures taskQueue == old(taskQueue)
    {
      var agent := agents.entries[agentId];
      if outcome != Refused {
        agent := agent.(load := Min(agent.load + DISPATCH_LOAD, 1.0));
      }
      ok := outcome == Delivered;
      if !ok {
        agent := agent.(status := ERROR);
      }
      agents := Put(agents, agentId, agent);
    }

    /**
     * The `/task` route: allocate, else offload when the host is busy or no
     * agent is active, else queue. An allocated id that is "" is falsy in
     * the source's `if agent_id:` and takes the no-allocation path.
     */
    method SubmitTask(task: Task, cpuPercent: real, memoryPercent: real, outcome: DispatchOutcome)
      returns (r: Submission)
      requires Valid()
      modifies this
      ensures Valid()
      ensures var a := AllocateTask(task, old(agents), resourceThreshold);
        if Truthy(a) then
          && r == (if outcome.Delivered? then Completed(a.value) else DispatchFailed(a.value))
          && agents.order == old(agents.order)
          && agents.entries == old(agents.entries)[a.value := Dispatched(old(agents.entries)[a.value], outcome)]
          && taskQueue == old(taskQueue)
        else if ShouldOffload(cpuPercent, memoryPercent, old(agents)) then
          r == Offloaded && agents == old(agents) && taskQueue == old(taskQueue)
        else
          r == Queued(task.id) && agents == old(agents) && taskQueue == old(taskQueue) + [task]
    {
      var agentId := AllocateTask(task, agents, resourceThreshold);
      if Truthy(agentId) {
        var ok := ExecuteTask(agentId.value, task, outcome);
        r := if ok then Completed(agentId.value) else DispatchFailed(agentId.value);
      } else if ShouldOffload(cpuPercent, memoryPercent, agents) {
        r := Offloaded;
      } else {
        taskQueue := taskQueue + [task];
        r := Queued(task.id);
      }
    }

    /**
     * One pass of `monitor_agents`: every agent silent for more than 30
     * seconds becomes "inactive", and every load decays by 0.01, floored at 0.
     */
    method MonitorTick(now: real)
      requires Valid()
      modifies this
      ensures Valid()
      ensures agents == MonitorAll(old(agents), now)
      ensures taskQueue == old(taskQueue)
    {
      var a0 := agents;
      var d := a0;
      var i := 0;
      assert a0.order[..0] == [];
      assert d.entries == PartlyMonitored(a0, now, 0).entries;
      while i < |a0.order|
        invariant 0 <= i <= |a0.order|
        invariant d == PartlyMonitored(a0, now, i)
        invariant agents == a0 && taskQueue == old(taskQueue)
      {
        var id := a0.order[i];
        var agent := a0.entries[id];
        if now - agent.lastSeen > HEARTBEAT_TIMEOUT {
          agent := agent.(status := INACTIVE);
        }
        agent := agent.(load := Max(agent.load - LOAD_DECAY, 0.0));
        assert agent == Monitored(a0.entries[id], now);
        MonitorStep(a0, now, i);
        d := Dict(d.order, d.entries[id := agent]);
        i := i + 1;
      }
      MonitorDone(a0, now);
      agents := d;
    }

    /**
     * One pass of `process_task_queue`. A task that finds no agent goes to
     * the back of the queue whatever its age; a task whose dispatch failed
     * goes to the back only while younger than 300 seconds.
     */
    method ProcessQueueTick(now: real, outcome: DispatchOutcome) returns (r: QueueStep)
      requires Valid()
      modifies this
      ensures Valid()
      ensures old(taskQueue) == [] ==> r == Idle && agents == old(agents) && taskQueue == []
      ensures old(taskQueue) != [] ==>
        var task := old(taskQueue)[0];
        var a := AllocateTask(task, old(agents), resourceThreshold);
        if !Truthy(a) then
          && r == RequeuedNoCapacity(task.id)
          && agents == old(agents)
          && taskQueue == Rotate(old(taskQueue))
        else
          && agents.order == old(agents.order)
          && agents.entries == old(agents.entries)[a.value := Dispatched(old(agents.entries)[a.value], outcome)]
          && (outcome.Delivered? ==> r == Processed(task.id, a.value) && taskQueue == old(taskQueue)[1..])
          && (!outcome.Delivered? && now - task.createdAt < QUEUE_EXPIRY ==>
                r == RequeuedAfterFailure(task.id, a.value) && taskQueue == Rotate(old(taskQueue)))
          && (!outcome.Delivered? && now - task.createdAt >= QUEUE_EXPIRY ==>
                r == ExpiredAfterFailure(task.id, a.value) && taskQueue == old(taskQueue)[1..])
    {
      if taskQueue == [] {
        return Idle;
      }
      var task := taskQueue[0];
      taskQueue := taskQueue[1..];
      var agentId := AllocateTask(task, agents, resourceThreshold);
      if Truthy(agentId) {
        var ok := ExecuteTask(agentId.value, task, outcome);
        if ok {
          r := Processed(task.id, agentId.value);
        } else if now - task.createdAt < QUEUE_EXPIRY {
          taskQueue := taskQueue + [task];
          r := RequeuedAfterFailure(task.id, agentId.value);
        } else {
          r := ExpiredAfterFailure(task.id, agentId.value);
        }
      } else {
        taskQueue := taskQueue + [task];
        r := RequeuedNoCapacity(task.id);
      }
    }
  }
}
