/**
 * The part of a location agent (agents/location_agents/base_agent.py) that
 * is not transport or inference: the air-quality step function, the load
 * bookkeeping around a task, the bounded sensor log and the recent-data
 * summary handed to the language model.
 *
 * The clock, the sensor's raw reading, the model's reply and the failure
 * of building the prompt are parameters.
 */
module BaseAgent {

  import opened Wrappers
  import opened Clamp
  import opened Buffers

  /** The sensor log keeps at most this many readings. */
  const MAX_SENSOR_READINGS := 1000
  /** Load taken on when a task starts, and released when it ends. */
  const TASK_LOAD := 0.1
  const TASK_RELEASE := 0.05
  /** The default look-back of the recent-data summary, in minutes. */
  const DEFAULT_RECENT_MINUTES := 10

  datatype SensorReading = SensorReading(
    timestamp: real,
    temperature: real,
    humidity: real,
    pressure: real,
    gasResistance: real,
    airQualityIndex: real)

  /** What the sensor driver returns. */
  datatype RawReading = RawReading(temperature: real, humidity: real, pressure: real, gasResistance: real)

  // ---------------------------------------------------------------------
  // Air quality
  // ---------------------------------------------------------------------

  /**
   * 1 (excellent) to 5 (very poor): the higher the gas resistance, the
   * better the air. Every threshold is strict.
   */
  function AirQualityIndex(gasResistance: real): (aqi: real)
    ensures aqi == 1.0 || aqi == 2.0 || aqi == 3.0 || aqi == 4.0 || aqi == 5.0
    ensures aqi == 1.0 <==> gasResistance > 50000.0
    ensures aqi == 2.0 <==> 20000.0 < gasResistance <= 50000.0
    ensures aqi == 3.0 <==> 10000.0 < gasResistance <= 20000.0
    ensures aqi == 4.0 <==> 5000.0 < gasResistance <= 10000.0
    ensures aqi == 5.0 <==> gasResistance <= 5000.0
  {
    if gasResistance > 50000.0 then 1.0
    else if gasResistance > 20000.0 then 2.0
    else if gasResistance > 10000.0 then 3.0
    else if gasResistance > 5000.0 then 4.0
    else 5.0
  }

  /** More gas resistance never gives a worse index. */
  lemma AirQualityIndexMonotone(g1: real, g2: real)
    requires g1 <= g2
    ensures AirQualityIndex(g2) <= AirQualityIndex(g1)
  {
  }

  lemma AirQualityBoundaries()
    ensures AirQualityIndex(50000.0) == 2.0
    ensures AirQualityIndex(20000.0) == 3.0
    ensures AirQualityIndex(10000.0) == 4.0
    ensures AirQualityIndex(5000.0) == 5.0
  {
  }

  // ---------------------------------------------------------------------
  // Load around a task
  // ---------------------------------------------------------------------

  /** The load while a task runs: raised by 0.1, capped at 1. */
  function EnteredLoad(load: real): (r: real)
    ensures r <= 1.0
    ensures load <= 1.0 ==> r >= load
    ensures load <= 1.0 - TASK_LOAD ==> r == load + TASK_LOAD
    ensures load > 1.0 - TASK_LOAD ==> r == 1.0
  {
    Min(load + TASK_LOAD, 1.0)
  }

  /** The load once the task ends, whether it succeeded or raised: lowered by 0.05, floored at 0. */
  function ReleasedLoad(load: real): (r: real)
    ensures r >= 0.0
    ensures load >= 0.0 ==> r <= load
    ensures load >= TASK_RELEASE ==> r == load - TASK_RELEASE
    ensures load < TASK_RELEASE ==> r == 0.0
  {
    Max(load - TASK_RELEASE, 0.0)
  }

  /**
   * A task keeps a load in [0, 1] there, and leaves it 0.05 higher than it
   * found it, up to 0.95: the agent's own bookkeeping never returns to 0.
   */
  lemma TaskLoadStaysInUnitRange(load: real)
    requires 0.0 <= load <= 1.0
    ensures 0.0 <= EnteredLoad(load) <= 1.0
    ensures 0.0 <= ReleasedLoad(EnteredLoad(load)) <= 1.0
    ensures ReleasedLoad(EnteredLoad(load)) == Min(load + TASK_LOAD - TASK_RELEASE, 1.0 - TASK_RELEASE)
  {
  }

  // ---------------------------------------------------------------------
  // Recent sensor data
  // ---------------------------------------------------------------------

  /** The readings taken after `cutoff`, in their original order. */
  function RecentReadings(readings: seq<SensorReading>, cutoff: real): (r: seq<SensorReading>)
    ensures |r| <= |readings|
    ensures forall x :: x in r <==> x in readings && x.timestamp > cutoff
  {
    if readings == [] then []
    else
      var rest := RecentReadings(readings[1..], cutoff);
      if readings[0].timestamp > cutoff then [readings[0]] + rest else rest
  }

  /** Filtering commutes with concatenation, so the filter keeps the order of the log. */
  lemma {:induction false} RecentReadingsAppend(a: seq<SensorReading>, b: seq<SensorReading>, cutoff: real)
    ensures RecentReadings(a + b, cutoff) == RecentReadings(a, cutoff) + RecentReadings(b, cutoff)
  {
    if a == [] {
      assert a + b == b;
    } else {
      assert (a + b)[0] == a[0];
      assert (a + b)[1..] == a[1..] + b;
      RecentReadingsAppend(a[1..], b, cutoff);
    }
  }

  /**
   * The last reading the filter keeps is the latest reading of the log
   * that is after the cutoff: it sits at index `i`, and every later one is
   * at or before the cutoff.
   */
  lemma {:induction false} LastRecentIsLatest(readings: seq<SensorReading>, cutoff: real) returns (i: nat)
    requires RecentReadings(readings, cutoff) != []
    ensures i < |readings| && readings[i].timestamp > cutoff
    ensures var recent := RecentReadings(readings, cutoff); readings[i] == recent[|recent| - 1]
    ensures forall j :: i < j < |readings| ==> readings[j].timestamp <= cutoff
  {
    var tail := readings[1..];
    var rest := RecentReadings(tail, cutoff);
    if rest == [] {
      forall j | 0 < j < |readings|
        ensures readings[j].timestamp <= cutoff
      {
        assert readings[j] == tail[j - 1];
        assert readings[j] in tail;
      }
      i := 0;
    } else {
      var k := LastRecentIsLatest(tail, cutoff);
      forall j | k + 1 < j < |readings|
        ensures readings[j].timestamp <= cutoff
      {
        assert readings[j] == tail[j - 1];
      }
      assert readings[k + 1] == tail[k];
      i := k + 1;
    }
  }

  lemma LatestRecentExists(readings: seq<SensorReading>, cutoff: real)
    requires RecentReadings(readings, cutoff) != []
    ensures var recent := RecentReadings(readings, cutoff);
      exists i :: (0 <= i < |readings| && readings[i] == recent[|recent| - 1]
        && forall j :: i < j < |readings| ==> readings[j].timestamp <= cutoff)
  {
    var i := LastRecentIsLatest(readings, cutoff);
  }

  /** The summary handed to the model; its rounded averages are not modelled. */
  datatype SensorContext =
    | NoRecentData
    | RecentSummary(location: string, timeRangeMinutes: int, sampleCount: nat, latest: SensorReading)

  /** The cutoff of `get_recent_sensor_context(minutes)` called at time `now`. */
  function Cutoff(now: real, minutes: int): real
  {
    now - (minutes * 60) as real
  }

  /**
   * "no_recent_data" exactly when no reading is younger than the cutoff;
   * otherwise the number of recent readings and the latest of them.
   */
  function RecentContext(readings: seq<SensorReading>, location: string, now: real, minutes: int): (c: SensorContext)
    ensures c.NoRecentData? <==> forall i :: 0 <= i < |readings| ==> readings[i].timestamp <= Cutoff(now, minutes)
    ensures c.RecentSummary? ==> c.location == location && c.timeRangeMinutes == minutes
    ensures c.RecentSummary? ==> 1 <= c.sampleCount <= |readings|
    ensures c.RecentSummary? ==> c.sampleCount == |RecentReadings(readings, Cutoff(now, minutes))|
    ensures c.RecentSummary? ==> c.latest in readings && c.latest.timestamp > Cutoff(now, minutes)
    ensures c.RecentSummary? ==>
      exists i :: 0 <= i < |readings| && readings[i] == c.latest
        && forall j :: i < j < |readings| ==> readings[j].timestamp <= Cutoff(now, minutes)
  {
    var recent := RecentReadings(readings, Cutoff(now, minutes));
    if recent == [] then
      assert forall i :: 0 <= i < |readings| ==> readings[i] in readings;
      NoRecentData
    else
      LatestRecentExists(readings, Cutoff(now, minutes));
      RecentSummary(location, minutes, |recent|, recent[|recent| - 1])
  }

  /** When the newest logged reading is recent, it is the summary's latest reading. */
  lemma LatestIsNewestReading(readings: seq<SensorReading>, x: SensorReading, location: string, now: real, minutes: int)
    requires x.timestamp > Cutoff(now, minutes)
    ensures RecentContext(readings + [x], location, now, minutes).RecentSummary?
    ensures RecentContext(readings + [x], location, now, minutes).latest == x
  {
    RecentReadingsAppend(readings, [x], Cutoff(now, minutes));
    assert RecentReadings([x], Cutoff(now, minutes)) == [x];
  }

  /** What a processed task returns. */
  datatype TaskResult = TaskResult(response: string, sensorContext: SensorContext, location: string, timestamp: real)

  class LocationAgent {
    const agentId: string
    const location: string
    var status: string
    var load: real
    var sensorData: seq<SensorReading>

    ghost predicate Valid()
      reads this
    {
      0.0 <= load <= 1.0 && |sensorData| <= MAX_SENSOR_READINGS
    }

    constructor (agentId: string, location: string)
      ensures Valid()
      ensures this.agentId == agentId && this.location == location
      ensures status == "active" && load == 0.0 && sensorData == []
    {
      this.agentId := agentId;
      this.location := location;
      status := "active";
      load := 0.0;
      sensorData := [];
    }

    /** `get_recent_sensor_context(minutes)` at time `now`. */
    function RecentSensorContext(now: real, minutes: int): (c: SensorContext)
      reads this
      ensures c.NoRecentData? <==> forall i :: 0 <= i < |sensorData| ==> sensorData[i].timestamp <= Cutoff(now, minutes)
    {
      RecentContext(sensorData, location, now, minutes)
    }

    /**
     * `process_task`: take on load, build the prompt from the recent data,
     * ask the model, release load. `promptError` stands for an exception
     * raised while building the prompt; the model's `reply` is an input.
     */
    method ProcessTask(now: real, promptError: Option<string>, reply: string)
      returns (r: Result<TaskResult, string>)
      requires Valid()
      modifies this`load
      ensures Valid()
      ensures load == ReleasedLoad(EnteredLoad(old(load)))
      ensures promptError.Some? ==> r == Failure(promptError.value)
      ensures promptError.None? ==>
        r == Success(TaskResult(reply, RecentSensorContext(now, DEFAULT_RECENT_MINUTES), location, now))
    {
      TaskLoadStaysInUnitRange(load);
      load := Min(load + TASK_LOAD, 1.0);
      var recent := RecentSensorContext(now, DEFAULT_RECENT_MINUTES);
      if promptError.Some? {
        load := Max(load - TASK_RELEASE, 0.0);
        return Failure(promptError.value);
      }
      load := Max(load - TASK_RELEASE, 0.0);
      r := Success(TaskResult(reply, recent, location, now));
    }

    /**
     * One iteration of `collect_sensor_data`: a reading (None when the
     * driver returned nothing or raised) is stamped, scored and logged,
     * and the log is cut back to its last 1000 entries.
     */
    method CollectSensorData(raw: Option<RawReading>, now: real)
      requires Valid()
      modifies this`sensorData
      ensures Valid()
      ensures raw.None? ==> sensorData == old(sensorData)
      ensures raw.Some? ==>
        var x := raw.value;
        sensorData == AppendCapped(old(sensorData),
          SensorReading(now, x.temperature, x.humidity, x.pressure, x.gasResistance, AirQualityIndex(x.gasResistance)),
          MAX_SENSOR_READINGS)
    {
      if raw.Some? {
        var x := raw.value;
        var aqi := AirQualityIndex(x.gasResistance);
        var reading := SensorReading(now, x.temperature, x.humidity, x.pressure, x.gasResistance, aqi);
        sensorData := sensorData + [reading];
        if |sensorData| > MAX_SENSOR_READINGS {
          sensorData := SliceFrom(sensorData, -MAX_SENSOR_READINGS);
        }
      }
    }
  }
}
