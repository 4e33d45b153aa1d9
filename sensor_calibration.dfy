/** Constant-offset calibration of sensor readings (sensors/sensor_calibration.py). */
module SensorCalibration {

  type Reading = map<string, real>

  datatype SensorCalibrator = SensorCalibrator(tempOffset: real, humidityOffset: real)

  /** The calibrator built with its default arguments. */
  const DEFAULT_CALIBRATOR := SensorCalibrator(0.0, 0.0)

  /**
   * A copy of `reading` with the temperature and humidity shifted by the
   * offsets, when present. The caller's reading is a value and stays as it was.
   */
  function Calibrate(c: SensorCalibrator, reading: Reading): (r: Reading)
    ensures r.Keys == reading.Keys
    ensures "temperature" in reading ==> r["temperature"] == reading["temperature"] + c.tempOffset
    ensures "humidity" in reading ==> r["humidity"] == reading["humidity"] + c.humidityOffset
    ensures forall k :: k in reading && k != "temperature" && k != "humidity" ==> r[k] == reading[k]
  {
    var t := if "temperature" in reading then reading["temperature" := reading["temperature"] + c.tempOffset]
             else reading;
    if "humidity" in t then t["humidity" := t["humidity"] + c.humidityOffset] else t
  }

  /** With the default (zero) offsets calibration changes nothing. */
  lemma DefaultCalibrationIsIdentity(reading: Reading)
    ensures Calibrate(DEFAULT_CALIBRATOR, reading) == reading
  {
    var r := Calibrate(DEFAULT_CALIBRATOR, reading);
    assert forall k :: k in r ==> r[k] == reading[k];
  }
}
