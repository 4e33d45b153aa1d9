# Supervisor coordination engine of a multi-agent smart environment, in Dafny

This project models the coordination core of a fleet of location agents
(office, kitchen, hallway) run by a central supervisor, and proves
properties of that model.

- **Supervisor** (`supervisor.dfy`). The supervisor keeps a registry of agents.
  - `AllocateTask` gives a task to the least-loaded available agent. An agent is available when it is "active" and below the resource threshold. Agents at the task's location come first, and ties go to the agent registered first.
  - When nothing is available, `ShouldOffload` decides on a cloud offload. It says yes when CPU is above 70 %, memory is above 80 % or no agent is active.
  - Otherwise submission queues the task.
  - The health monitor demotes agents silent for more than 30 s and decays every load by 0.01.
  - The queue reconciler pops the head and retries it. A task that finds no agent goes to the back of the queue. A task whose dispatch failed goes to the back only while younger than 300 s.
- **Heartbeat allocator** (`heartbeat_allocator.dfy`). A second allocator records heartbeats and caches a leader.
  - The leader is the smallest id registered, or the smallest id heartbeated in the last 10 s after an election.
  - It picks the least-loaded agent when utilization lies between its threshold and 0.9. Above 0.9 it picks nobody, and below its threshold it picks the cached leader.
- **Sensor side** (`data_processor.dfy`, `sensor_calibration.dfy`, `base_agent.dfy`).
  - A bounded reading buffer and its per-key mean.
  - Constant-offset calibration.
  - The air-quality step function.
  - A location agent's load bookkeeping around a task.
  - Its sensor log, capped at 1000 readings.
  - The recent-data summary it gives the language model.
- **Shared helpers.**
  - `dicts.dfy` models a Python `dict` as a map plus key insertion order, because `min` and stable `sorted` break ties by that order.
  - `selection.dfy` is `min(..., key=...)`: the first element of least key.
  - `lex_order.dfy` is Python's string `<`.
  - `buffers.dfy` is `s[-n:]` trimming.
  - `clamp.dfy` holds `min` and `max`.

Loads, times and offsets are `real`, so arithmetic is exact. The wall clock, the CPU and memory readings, the outcome of an HTTP dispatch (delivered, refused, or a success status with an unreadable body), the sensor driver's reading and the language model's reply are all parameters. Each `while True` background loop is one tick method.

## Model

| member | source | states |
|---|---|---|
| Selection.FirstMin | agents/supervisor/supervisor_agent.py:76-79 | `min(items, key=load)`. The result is None exactly when nothing is eligible. Otherwise it is an eligible index whose weight is at most every eligible weight, and every eligible element before it weighs strictly more, so ties go to the first. |
| Supervisor.AllocateTask | agents/supervisor/supervisor_agent.py:56-79 | None exactly when no agent is both "active" and below the threshold. Otherwise the chosen agent is available. If the task names a location where some agent is available, the chosen agent is at that location. Its load is at most that of every agent of its tier, and every earlier-registered agent of that tier has strictly more load. |
| Supervisor.SaturatedLocationFallsBack | agents/supervisor/supervisor_agent.py:69-79 | The only kitchen agent has load 0.9, above the 0.7 threshold, and an office agent has 0.2. A kitchen task then goes to the office agent. |
| Supervisor.ShouldOffloadIff | agents/supervisor/supervisor_agent.py:180-186 | Offload holds iff CPU > 70, or memory > 80, or no registered agent is "active". |
| Supervisor.QueuedOnlyWhenSaturated | agents/supervisor/supervisor_agent.py:128-140 | Allocation fails and offload is declined, which is when submission queues. Then some agent is active, and every active agent is at or above the threshold. |
| Supervisor.Monitored | agents/supervisor/supervisor_agent.py:207-213 | Only status and load change. An agent silent for more than 30 s becomes "inactive", and any other keeps its status. A load of at least 0.01 drops by exactly 0.01, and a smaller load becomes exactly 0. |
| Supervisor.MonitorAll | agents/supervisor/supervisor_agent.py:207-213 | The monitor pass keeps the same keys in the same order and applies `Monitored` to every agent. |
| Supervisor.Dispatched | agents/supervisor/supervisor_agent.py:157-178 | Only status and load change. A clean success keeps the status. Any failure sets "error". A failure before a success status came back leaves the load unchanged. Once a success status came back, the load rises by exactly 0.1 from at most 0.9 and becomes exactly 1 from above 0.9. That includes a reply whose body then fails to parse. |
| Supervisor.MonitorKeepsLoadsInRange | agents/supervisor/supervisor_agent.py:207-213 | A monitor pass preserves "every load is in [0, 1]". |
| Supervisor.DispatchKeepsLoadsInRange | agents/supervisor/supervisor_agent.py:170-177 | A dispatch with any of its three outcomes preserves "every load is in [0, 1]". |
| Supervisor.RegisterKeepsLoadsInRange | agents/supervisor/supervisor_agent.py:113-115 | Registering a record whose own load is in [0, 1] preserves "every load is in [0, 1]". |
| Supervisor.RegisterCanBreakLoadsInRange | agents/supervisor/supervisor_agent.py:113-115 | The record is stored as sent, so registering one with load 5 puts an out-of-range load into the registry. |
| Supervisor.NoReactivation | agents/supervisor/supervisor_agent.py:207-213 | Neither the monitor nor a dispatch turns an agent "active". |
| Supervisor.StaleAgentsNotAllocated | agents/supervisor/supervisor_agent.py:60-63 | After a monitor pass at `now`, an allocated agent was heard from within 30 s. |
| Supervisor.Rotate | agents/supervisor/supervisor_agent.py:221-235 | Re-queueing the head keeps the queue's length and its multiset of tasks. |
| Supervisor.RotationsKeepTasks | agents/supervisor/supervisor_agent.py:233-235 | Any number of ticks with no capacity loses, expires or duplicates no task. |
| Supervisor.RotationsShift | agents/supervisor/supervisor_agent.py:217-237 | After k ≤ n such ticks the queue is `q[k..] + q[..k]`, so task k is at the head. |
| Supervisor.RotationsReturn | agents/supervisor/supervisor_agent.py:217-237 | After as many such ticks as there are queued tasks, the queue is back in its original order. |
| Supervisor.SupervisorAgent.constructor | agents/supervisor/supervisor_agent.py:82-90 | It starts with no agents, an empty queue and the given resource threshold. |
| Supervisor.SupervisorAgent.RegisterAgent | agents/supervisor/supervisor_agent.py:111-117 | It stores the record under its own id, stamped `lastSeen = now`. It overwrites any previous record with that id, which keeps its place in the order. Every other entry and the queue are unchanged. |
| Supervisor.SupervisorAgent.ExecuteTask | agents/supervisor/supervisor_agent.py:153-178 | It reports success exactly for a delivered reply. Only the chosen agent changes, as `Dispatched` says for the outcome. Order and queue are unchanged. |
| Supervisor.SupervisorAgent.SubmitTask | agents/supervisor/supervisor_agent.py:119-140 | A truthy allocation dispatches to that agent and never queues. Otherwise offload, when it holds, changes nothing. Otherwise the task is appended to the queue and agents are unchanged. |
| Supervisor.SupervisorAgent.MonitorTick | agents/supervisor/supervisor_agent.py:202-215 | The registry becomes `MonitorAll(old registry, now)` and the queue is unchanged. |
| Supervisor.SupervisorAgent.ProcessQueueTick | agents/supervisor/supervisor_agent.py:217-237 | An empty queue changes nothing. With no agent available the queue is rotated whatever the task's age. A successful dispatch drops the head. A failed one rotates it if younger than 300 s and drops it otherwise. The chosen agent is updated as `Dispatched` says. |
| LexOrder.LexMin | agents/supervisor/task_allocator.py:35-38 | `min` of the kept ids: None exactly when no id is kept, otherwise one of the kept ids. |
| LexOrder.LexMinIsLeast | agents/supervisor/task_allocator.py:38 | The id `LexMin` picks sorts before or equal to every kept id in Python's string order. |
| LexOrder.LexLessIrreflexive | agents/supervisor/task_allocator.py:27 | No string sorts before itself in Python's string `<`. |
| LexOrder.LexLessTransitive | agents/supervisor/task_allocator.py:27 | Python's string `<` is transitive. |
| LexOrder.LexLessTotal | agents/supervisor/task_allocator.py:27-38 | Of two distinct strings one sorts before the other. With the two lemmas above, Python's string `<`, used for the leader at line 27 and the election at line 38, is a strict total order. |
| HeartbeatAllocator.LeastLoadedKey | agents/supervisor/task_allocator.py:46-48 | `sorted(..., key=load)[0]` is a registered agent whose load, with a missing load counting as 0, is minimal. Every agent registered before it has strictly more load. |
| HeartbeatAllocator.NextLeader | agents/supervisor/task_allocator.py:27-28 | The new leader is the new id or the old leader, and it sorts before or equal to both. |
| HeartbeatAllocator.LeaderAfter | agents/supervisor/task_allocator.py:24-28 | After at least one registration there is a leader. |
| HeartbeatAllocator.LeaderIsLeastRegistered | agents/supervisor/task_allocator.py:24-28 | Registrations with no election in between leave as leader the smallest id registered so far. |
| HeartbeatAllocator.Elect | agents/supervisor/task_allocator.py:33-39 | None exactly when no heartbeat is younger than 10 s. Otherwise it picks a live id that sorts before or equal to every live id. |
| HeartbeatAllocator.ElectsSmallestLiveId | agents/supervisor/task_allocator.py:35-38 | With "b", "a" and "c" all live, "a" is elected. |
| HeartbeatAllocator.TaskAllocator.constructor | agents/supervisor/task_allocator.py:14-19 | It starts with no agents, no heartbeats, no leader and utilization 0. |
| HeartbeatAllocator.TaskAllocator.UpdateUtilization | agents/supervisor/task_allocator.py:21-22 | It sets utilization and changes nothing else. |
| HeartbeatAllocator.TaskAllocator.Register | agents/supervisor/task_allocator.py:24-28 | It sets `agents[id] = info` and `heartbeats[id] = now`. The leader becomes `NextLeader(old leader, id)`. Utilization is unchanged. |
| HeartbeatAllocator.TaskAllocator.Heartbeat | agents/supervisor/task_allocator.py:30-31 | It sets `heartbeats[id] = now`, adding ids that never registered. Agents, leader and utilization are unchanged. |
| HeartbeatAllocator.TaskAllocator.ElectLeader | agents/supervisor/task_allocator.py:33-39 | With no live id it fails, and the leader is unchanged. Otherwise it returns `Elect` and caches it as leader. Agents, heartbeats and utilization are unchanged. |
| HeartbeatAllocator.TaskAllocator.Allocate | agents/supervisor/task_allocator.py:41-49 | With no agents, or utilization > 0.9, it picks nobody. With threshold < utilization ≤ 0.9 it picks the "id" of the least-loaded agent. Otherwise it returns the cached leader. As a function, it changes no state. |
| Buffers.AppendCapped | sensors/data_processor.py:15-17 | For maxlen ≥ 0 the new element is last, and the result is a suffix of the old buffer plus that element. For maxlen ≥ 1 the length is min(n + 1, maxlen). maxlen = 0 keeps everything. When no trimming is needed the old elements stay and the length grows by one. |
| Buffers.AppendCappedRetains | sensors/data_processor.py:15-17 | Appending to the retained suffix of a history gives the retained suffix of the extended history. |
| DataProcessor.DataProcessor.constructor | sensors/data_processor.py:10-12 | It starts with an empty buffer and history and the given maxlen. |
| DataProcessor.DataProcessor.AddReading | sensors/data_processor.py:14-17 | The buffer becomes `AppendCapped(old, reading, maxlen)`. For maxlen ≥ 0 it always equals the last min(n, maxlen) readings ever added, in order, and all of them when maxlen = 0. |
| DataProcessor.DataProcessor.Average | sensors/data_processor.py:19-23 | An empty buffer gives the empty map. Otherwise the result fails exactly when some reading lacks a key of the first (KeyError). On success its keys are exactly the first reading's keys, and each value times the count is the sum of that key's values. |
| DataProcessor.DataProcessor.AverageWithinBounds | sensors/data_processor.py:23 | Each mean lies between any bounds on that key's buffered values. |
| SensorCalibration.Calibrate | sensors/sensor_calibration.py:11-17 | It keeps the same key set. The temperature gains `temp_offset` and the humidity gains `humidity_offset`, each if present. Every other key keeps its value. |
| SensorCalibration.DefaultCalibrationIsIdentity | sensors/sensor_calibration.py:7-17 | With the default zero offsets, calibration is the identity. |
| BaseAgent.AirQualityIndex | agents/location_agents/base_agent.py:222-235 | The result is one of 1.0 to 5.0. Each value holds exactly on its strict-threshold band: above 50000, (20000, 50000], (10000, 20000], (5000, 10000], and ≤ 5000. |
| BaseAgent.AirQualityIndexMonotone | agents/location_agents/base_agent.py:226-235 | The index is non-increasing in gas resistance. |
| BaseAgent.AirQualityBoundaries | agents/location_agents/base_agent.py:226-235 | 50000 maps to 2, 20000 to 3, 10000 to 4 and 5000 to 5. |
| BaseAgent.EnteredLoad | agents/location_agents/base_agent.py:117 | The load while a task runs rises by exactly 0.1 from at most 0.9 and is exactly 1 from above 0.9. So it is at most 1, and never below a load that was at most 1. |
| BaseAgent.ReleasedLoad | agents/location_agents/base_agent.py:130-140 | The load after either exit path falls by exactly 0.05 from at least 0.05 and is exactly 0 below that. So it is ≥ 0, and never above a non-negative load. |
| BaseAgent.TaskLoadStaysInUnitRange | agents/location_agents/base_agent.py:115-141 | From a load in [0, 1], the load stays in [0, 1] during and after a task. The net effect is min(load + 0.05, 0.95). |
| BaseAgent.RecentReadings | agents/location_agents/base_agent.py:145-146 | A reading is kept iff it is in the log and its timestamp is after the cutoff. |
| BaseAgent.RecentReadingsAppend | agents/location_agents/base_agent.py:146 | Filtering a concatenation gives the concatenation of the filters, so log order is preserved. |
| BaseAgent.LastRecentIsLatest | agents/location_agents/base_agent.py:146-173 | The last reading the filter keeps sits at an index of the log after which no reading is after the cutoff. |
| BaseAgent.RecentContext | agents/location_agents/base_agent.py:143-174 | The result is "no_recent_data" exactly when no reading is after `now - minutes*60`. Otherwise it carries the location and the minutes. Its sample count is the number of readings the filter keeps. Its latest reading is the last reading of the log after the cutoff: every later one is at or before the cutoff. |
| BaseAgent.LatestIsNewestReading | agents/location_agents/base_agent.py:167-173 | When the newest logged reading is recent, it is the summary's latest reading. |
| BaseAgent.LocationAgent.constructor | agents/location_agents/base_agent.py:45-58 | It starts "active" with load 0 and an empty sensor log. |
| BaseAgent.LocationAgent.RecentSensorContext | agents/location_agents/base_agent.py:143-149 | It is "no_recent_data" exactly when no logged reading is newer than the cutoff. |
| BaseAgent.LocationAgent.ProcessTask | agents/location_agents/base_agent.py:115-141 | On both exit paths the load becomes `ReleasedLoad(EnteredLoad(old))`, which stays in [0, 1]. An error while building the prompt is returned as a failure. Otherwise the result carries the reply, the recent-data summary, the location and the time. |
| BaseAgent.LocationAgent.CollectSensorData | agents/location_agents/base_agent.py:190-220 | With no reading the log is unchanged. Otherwise the stamped, scored reading is appended and the log cut to its last 1000 entries, so it never exceeds 1000. |

## Behaviour of the code worth knowing

- `allocate_task` breaks ties between equally loaded agents by dict insertion order: the agent registered first wins, whatever its id.
- `process_task_queue` re-queues a task for which no agent is available on every tick, without any age check. The 300-second expiry applies only after a failed dispatch (`supervisor_agent.py:231-235`). So a task queued while every agent is saturated is never dropped (`RotationsKeepTasks`).
- In `submit_task` a failed dispatch marks the agent "error" and fails the request. The task is not queued, so it is lost.
- `execute_task` raises the agent's load before it parses the reply body. A success status whose body is not JSON therefore leaves the agent both "error" and more loaded (`UnreadableReply`).
- `if agent_id:` tests truthiness. An agent registered under the empty id `""` can be chosen by `allocate_task`, but the submission then takes the no-allocation path (offload or queue), and the reconciler re-queues it. `SubmitTask` and `ProcessQueueTick` model this through `Truthy`.
- The supervisor has no heartbeat route, and only registration can set "active". An agent demoted by the monitor stays inactive until it registers again (`NoReactivation`).
- Registration stores the record as sent. A registered load outside [0, 1] enters the registry (`RegisterCanBreakLoadsInRange`). The invariant "every load is in [0, 1]" (`LoadsInRange`) is therefore not part of `SupervisorAgent.Valid()`. It is proved to be kept by the monitor, by dispatch and by registering an in-range record.
- In the heartbeat allocator, `heartbeat` also records ids that never registered, so an election can pick such an id. The cached leader is the smallest registered id only while no election intervenes (`LeaderIsLeastRegistered`).
- `DataProcessor` with `maxlen = 0` never trims, because `s[-0:]` is all of `s`. A negative `maxlen` drops a prefix on every insertion. The last-n invariant is stated for `maxlen ≥ 0`.

## Left out

- HTTP and FastAPI plumbing: routes, CORS, `list_agents`, `get_status`, `register_with_supervisor`, `send_heartbeat`, `health_check`, `get_sensor_data`, the agents' `/execute` route, the API server and the message handler. They are transport only, so a dispatch is modelled as an outcome parameter.
- asyncio scheduling, `asyncio.sleep`, `create_task`, the resource monitor and the model utilities. Each loop body is one tick method taking `now`, and concurrency is not modelled.
- `time.time()` and `psutil` readings become parameters.
- The sensor driver and its random mock readings. A driver reading is a parameter.
- Language-model inference (`generate_response`, the Llama wrapper). The reply is a parameter.
- `execute_cloud_task`: it only sleeps and returns a fixed dict, so offload is a result value.
- Prompt templates and capability lists of the hallway, kitchen and office agents, and `_format_sensor_context`. They are fixed string formatting.
- Task ids generated from the clock in milliseconds. A task's id and creation time are inputs.
- YAML configuration loading, logging, packaging and the demo scenarios. The resource threshold is a constructor parameter.
- The test fixtures, which refer to classes and methods the code does not have.
- BaseAgent.RecentContext: the averages rounded to one decimal are not modelled. Only the qualifying readings, their count and the latest one are.
- DataProcessor.DataProcessor.Average: the mean is exact over the reals. The float result of `statistics.mean` is not modelled.
- HeartbeatAllocator.TaskAllocator.Allocate: an info dict is reduced to its "id" and "load" entries. A non-numeric load is not modelled.
- Supervisor.SupervisorAgent.ExecuteTask: the agent's response body is not returned. Only whether the dispatch was delivered is.
- Supervisor.SupervisorAgent.SubmitTask: it returns what happened to the task, not the response dicts of the route.
