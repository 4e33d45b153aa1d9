/**
 * The heartbeat-based allocator (agents/supervisor/task_allocator.py): it
 * records each agent's info dict and the time of its last heartbeat,
 * caches a leader, and picks an agent according to a utilization level
 * reported from outside.
 */
module HeartbeatAllocator {

  import opened Wrappers
  import opened Dicts
  import opened Selection
  import opened LexOrder

  /** A heartbeat younger than this many seconds makes an agent live for election. */
  const LIVENESS_WINDOW := 10.0
  /** Above this utilization the allocator refuses to pick anyone. */
  const SATURATION := 0.9

  const NO_ACTIVE_AGENTS := "No active agents for leader election"

  /** The info dict an agent registers with; only its "id" and "load" entries are read. */
  datatype AgentInfo = AgentInfo(id: Option<string>, load: Option<real>)

  /** `info.get("load", 0)` */
  function LoadOf(info: AgentInfo): real
  {
    match info.load
    case Some(l) => l
    case None => 0.0
  }

  /** Looking up `info["id"]` raises KeyError when the info has no "id". */
  datatype AllocError = MissingIdKey

  function IdOf(info: AgentInfo): (r: Result<Option<string>, AllocError>)
    ensures info.id.Some? <==> r.Success?
    ensures r.Success? ==> r.value == info.id
  {
    match info.id
    case Some(x) => Success(Some(x))
    case None => Failure(MissingIdKey)
  }

  lemma NonEmptyOrder<V>(d: Dict<string, V>)
    requires WellFormed(d) && d.entries != map[]
    ensures |d.order| > 0
  {
    var k :| k in d.entries;
    assert k in d.order;
  }

  /**
   * The key of `sorted(agents.values(), key=load)[0]`: an agent of least
   * load, the first registered among equals (the sort is stable).
   */
  function LeastLoadedKey(agents: Dict<string, AgentInfo>): (k: string)
    requires WellFormed(agents) && agents.entries != map[]
    ensures k in agents.entries
    ensures forall k2 :: k2 in agents.entries ==> LoadOf(agents.entries[k]) <= LoadOf(agents.entries[k2])
    ensures forall i, j ::
              (0 <= i < j < |agents.order| && agents.order[j] == k) ==>
              LoadOf(agents.entries[k]) < LoadOf(agents.entries[agents.order[i]])
  {
    var m := agents.entries;
    var weight := (id: string) => if id in m then LoadOf(m[id]) else 0.0;
    NonEmptyOrder(agents);
    var p := FirstMin(agents.order, (id: string) => true, weight);
    assert p.Some?;
    LeastAmongKeys(agents, weight, p.value);
    agents.order[p.value]
  }

  lemma LeastAmongKeys(agents: Dict<string, AgentInfo>, weight: string -> real, p: nat)
    requires WellFormed(agents) && p < |agents.order|
    requires forall id :: id in agents.entries ==> weight(id) == LoadOf(agents.entries[id])
    requires forall i :: 0 <= i < |agents.order| ==> weight(agents.order[p]) <= weight(agents.order[i])
    requires forall i :: 0 <= i < p ==> weight(agents.order[p]) < weight(agents.order[i])
    ensures var k := agents.order[p];
      && (forall k2 :: k2 in agents.entries ==> LoadOf(agents.entries[k]) <= LoadOf(agents.entries[k2]))
      && (forall i, j ::
            (0 <= i < j < |agents.order| && agents.order[j] == k) ==>
            LoadOf(agents.entries[k]) < LoadOf(agents.entries[agents.order[i]]))
  {
    var k := agents.order[p];
    forall k2 | k2 in agents.entries
      ensures LoadOf(agents.entries[k]) <= LoadOf(agents.entries[k2])
    {
      var i :| 0 <= i < |agents.order| && agents.order[i] == k2;
    }
    forall i, j | 0 <= i < j < |agents.order| && agents.order[j] == k
      ensures LoadOf(agents.entries[k]) < LoadOf(agents.entries[agents.order[i]])
    {
      assert j == p;
    }
  }

  /** The leader after registering `id`: `id` if there was none or `id` sorts first. */
  function NextLeader(leader: Option<string>, id: string): (r: string)
    ensures r == id || leader == Some(r)
    ensures LexLe(r, id)
    ensures leader.Some? ==> LexLe(r, leader.value)
  {
    if leader.None? || LexLess(id, leader.value) then id
    else
      LexLeTotal(id, leader.value);
      leader.value
  }

  lemma LexLeTotal(a: string, b: string)
    ensures LexLe(a, b) || LexLe(b, a)
  {
    if a != b {
      LexLessTotal(a, b);
    }
  }

  /** The cached leader after registering `ids` one after another, with no election between. */
  function LeaderAfter(start: Option<string>, ids: seq<string>): (r: Option<string>)
    ensures ids != [] ==> r.Some?
  {
    if ids == [] then start
    else Some(NextLeader(LeaderAfter(start, ids[..|ids| - 1]), ids[|ids| - 1]))
  }

  /**
   * Registration alone keeps the leader at the smallest id registered so
   * far (Python's string order).
   */
  lemma {:induction false} LeaderIsLeastRegistered(ids: seq<string>)
    requires ids != []
    ensures var l := LeaderAfter(None, ids);
      l.Some? && l.value in ids && forall i :: 0 <= i < |ids| ==> LexLe(l.value, ids[i])
  {
    var n := |ids|;
    var init := ids[..n - 1];
    var l := LeaderAfter(None, ids);
    if n == 1 {
      assert init == [];
    } else {
      LeaderIsLeastRegistered(init);
      var prev := LeaderAfter(None, init);
      forall i | 0 <= i < n
        ensures LexLe(l.value, ids[i])
      {
        if i < n - 1 {
          assert ids[i] == init[i];
          LexLeTransitive(l.value, prev.value, ids[i]);
        }
      }
    }
  }

  /**
   * The live ids: those whose last heartbeat is less than 10 seconds old.
   * Heartbeats are kept for ids that never registered, too.
   */
  function Elect(heartbeats: Dict<string, real>, now: real): (r: Option<string>)
    requires WellFormed(heartbeats)
    ensures r.None? <==> forall id :: id in heartbeats.entries ==> now - heartbeats.entries[id] >= LIVENESS_WINDOW
    ensures r.Some? ==> r.value in heartbeats.entries && now - heartbeats.entries[r.value] < LIVENESS_WINDOW
    ensures r.Some? ==> forall id :: id in heartbeats.entries && now - heartbeats.entries[id] < LIVENESS_WINDOW ==>
                          LexLe(r.value, id)
  {
    var m := heartbeats.entries;
    var live := (id: string) => id in m && now - m[id] < LIVENESS_WINDOW;
    var r := LexMin(heartbeats.order, live);
    LexMinIsLeast(heartbeats.order, live);
    LiveAmongKeys(heartbeats, now, live, r);
    r
  }

  lemma LiveAmongKeys(heartbeats: Dict<string, real>, now: real, live: string -> bool, r: Option<string>)
    requires WellFormed(heartbeats)
    requires forall id :: live(id) <==> id in heartbeats.entries && now - heartbeats.entries[id] < LIVENESS_WINDOW
    requires r.None? <==> forall i :: 0 <= i < |heartbeats.order| ==> !live(heartbeats.order[i])
    requires r.Some? ==> forall i :: 0 <= i < |heartbeats.order| && live(heartbeats.order[i]) ==>
                           LexLe(r.value, heartbeats.order[i])
    ensures r.None? <==> forall id :: id in heartbeats.entries ==> now - heartbeats.entries[id] >= LIVENESS_WINDOW
    ensures r.Some? ==> forall id :: id in heartbeats.entries && now - heartbeats.entries[id] < LIVENESS_WINDOW ==>
                          LexLe(r.value, id)
  {
    forall id | live(id)
      ensures exists i :: 0 <= i < |heartbeats.order| && heartbeats.order[i] == id
    {
      assert id in heartbeats.order;
    }
  }

  /** Heartbeats from "b", "a" and "c", all within the last 10 seconds, elect "a". */
  lemma ElectsSmallestLiveId()
    ensures var hb := Dict(["b", "a", "c"], map["b" := 5.0, "a" := 6.0, "c" := 7.0]);
      WellFormed(hb) && Elect(hb, 10.0) == Some("a")
  {
    var hb := Dict(["b", "a", "c"], map["b" := 5.0, "a" := 6.0, "c" := 7.0]);
    assert WellFormed(hb);
  }

  class TaskAllocator {
    const threshold: real
    var agents: Dict<string, AgentInfo>
    var heartbeats: Dict<string, real>
    var leader: Option<string>
    var utilization: real

    ghost predicate Valid()
      reads this
    {
      WellFormed(agents) && WellFormed(heartbeats)
    }

    constructor (threshold: real)
      ensures Valid() && this.threshold == threshold
      ensures agents.entries == map[] && heartbeats.entries == map[]
      ensures leader == None && utilization == 0.0
    {
      this.threshold := threshold;
      agents := Empty();
      heartbeats := Empty();
      leader := None;
      utilization := 0.0;
    }

    method UpdateUtilization(util: real)
      modifies this
      ensures utilization == util
      ensures agents == old(agents) && heartbeats == old(heartbeats) && leader == old(leader)
    {
      utilization := util;
    }

    /** Store the info, stamp a heartbeat, and lower the cached leader to `agentId` if it sorts first. */
    method Register(agentId: string, info: AgentInfo, now: real)
      requires Valid()
      modifies this
      ensures Valid()
      ensures agents == Put(old(agents), agentId, info)
      ensures heartbeats == Put(old(heartbeats), agentId, now)
      ensures leader == Some(NextLeader(old(leader), agentId))
      ensures utilization == old(utilization)
    {
      agents := Put(agents, agentId, info);
      heartbeats := Put(heartbeats, agentId, now);
      if leader.None? || LexLess(agentId, leader.value) {
        leader := Some(agentId);
      }
    }

    /** Stamp a heartbeat; an id that never registered gets an entry too. */
    method Heartbeat(agentId: string, now: real)
      requires Valid()
      modifies this
      ensures Valid()
      ensures heartbeats.entries == old(heartbeats.entries)[agentId := now]
      ensures agentId in old(heartbeats.entries) ==> heartbeats.order == old(heartbeats.order)
      ensures agentId !in old(heartbeats.entries) ==> heartbeats.order == old(heartbeats.order) + [agentId]
      ensures agents == old(agents) && leader == old(leader) && utilization == old(utilization)
    {
      heartbeats := Put(heartbeats, agentId, now);
    }

    /**
     * Elect the smallest live id and cache it; when no id is live the
     * election fails and the cached leader stays as it was.
     */
    method ElectLeader(now: real) returns (r: Result<string, string>)
      requires Valid()
      modifies this
      ensures Valid()
      ensures agents == old(agents) && heartbeats == old(heartbeats) && utilization == old(utilization)
      ensures var e := Elect(old(heartbeats), now);
        && (e.None? ==> r == Failure(NO_ACTIVE_AGENTS) && leader == old(leader))
        && (e.Some? ==> r == Success(e.value) && leader == e)
    {
      var e := Elect(heartbeats, now);
      if e.None? {
        return Failure(NO_ACTIVE_AGENTS);
      }
      leader := e;
      r := Success(e.value);
    }

    /**
     * No agent when none is registered or utilization is above 0.9; the
     * least-loaded agent's "id" when utilization is above the threshold;
     * otherwise the cached leader. Reads the state and changes nothing.
     */
    function Allocate(): (r: Result<Option<string>, AllocError>)
      reads this
      requires Valid()
      ensures agents.entries == map[] || utilization > SATURATION ==> r == Success(None)
      ensures agents.entries != map[] && threshold < utilization <= SATURATION ==>
                r == IdOf(agents.entries[LeastLoadedKey(agents)])
      ensures agents.entries != map[] && utilization <= SATURATION && utilization <= threshold ==>
                r == Success(leader)
    {
      if agents.entries == map[] then Success(None)
      else if utilization > SATURATION then Success(None)
      else if utilization > threshold then IdOf(agents.entries[LeastLoadedKey(agents)])
      else Success(leader)
    }
  }
}
