/**
 * The shake-detection rule shared by ShakeService.onSensorChanged and
 * MainActivity.onSensorChanged: two magnitudes, the previous and the current
 * one, and a strict, signed comparison of their difference with a threshold.
 * The magnitude sqrt(x*x + y*y + z*z) is taken as a given real number.
 */
module Shake {

  /** SensorManager.GRAVITY_EARTH, the value both detector fields start from. */
  const GravityEarth: real := 9.80665

  /** The field shakeThreshold of both classes. */
  const ShakeThreshold: real := 12.0

  /** Sensor.TYPE_ACCELEROMETER. */
  const TypeAccelerometer: int := 1

  /** A sensor callback: which sensor produced it and the magnitude of its values. */
  datatype SensorEvent = SensorEvent(sensorType: int, magnitude: real)

  /** The pair (accelerationLastValue, accelerationCurrentValue). */
  datatype Detector = Detector(last: real, current: real)

  /** The detector as onCreate leaves it. */
  const Initial: Detector := Detector(GravityEarth, GravityEarth)

  predicate IsAccelerometer(e: SensorEvent) {
    e.sensorType == TypeAccelerometer
  }

  /** The difference the detector compares with the threshold. */
  function Delta(d: Detector): real {
    d.current - d.last
  }

  /** The two field assignments of onSensorChanged. */
  function Update(d: Detector, e: SensorEvent): (d': Detector)
    ensures IsAccelerometer(e) ==> d'.last == d.current && d'.current == e.magnitude
    ensures !IsAccelerometer(e) ==> d' == d
  {
    if IsAccelerometer(e) then Detector(d.current, e.magnitude) else d
  }

  /** Whether onSensorChanged calls sendEmergencyMessage for this event. */
  predicate Fires(d: Detector, e: SensorEvent): (fired: bool)
    ensures fired <==> IsAccelerometer(e) && e.magnitude - d.current > ShakeThreshold
  {
    IsAccelerometer(e) && Delta(Update(d, e)) > ShakeThreshold
  }

  /** A shake fires exactly when the new magnitude exceeds the previous one by more than the threshold. */
  lemma FiresIff(d: Detector, e: SensorEvent)
    ensures Fires(d, e) <==> IsAccelerometer(e) && e.magnitude - d.current > ShakeThreshold
    ensures e.magnitude - d.current <= ShakeThreshold ==> !Fires(d, e)
    ensures !IsAccelerometer(e) ==> !Fires(d, e) && Update(d, e) == d
  {
  }

  /** The detector after a stream of events. */
  function Run(d: Detector, es: seq<SensorEvent>): Detector
    decreases |es|
  {
    if es == [] then d else Run(Update(d, es[0]), es[1..])
  }

  /** How many shakes a stream of events fires. */
  function Shakes(d: Detector, es: seq<SensorEvent>): nat
    decreases |es|
  {
    if es == [] then 0
    else (if Fires(d, es[0]) then 1 else 0) + Shakes(Update(d, es[0]), es[1..])
  }

  /** The accelerometer magnitudes of a stream, in order; other sensors' events are dropped. */
  function Readings(es: seq<SensorEvent>): seq<real>
    decreases |es|
  {
    if es == [] then []
    else (if IsAccelerometer(es[0]) then [es[0].magnitude] else []) + Readings(es[1..])
  }

  /** Reference definition: the number of consecutive pairs that rise by more than the threshold. */
  function Rises(ms: seq<real>): nat
    decreases |ms|
  {
    if |ms| < 2 then 0
    else (if ms[1] - ms[0] > ShakeThreshold then 1 else 0) + Rises(ms[1..])
  }

  /** No consecutive pair rises by more than the threshold. */
  predicate Smooth(ms: seq<real>) {
    forall i :: 0 <= i < |ms| - 1 ==> ms[i + 1] - ms[i] <= ShakeThreshold
  }

  /** The detector fires once per steep rise in the readings, the first reading being compared with the baseline. */
  lemma {:induction false} ShakesAreRises(d: Detector, es: seq<SensorEvent>)
    ensures Shakes(d, es) == Rises([d.current] + Readings(es))
    decreases |es|
  {
    if es != [] {
      var e, rest := es[0], es[1..];
      ShakesAreRises(Update(d, e), rest);
      assert es == [e] + rest;
      if IsAccelerometer(e) {
        assert Readings(es) == [e.magnitude] + Readings(rest);
        var ms := [d.current] + Readings(es);
        assert ms[1..] == [Update(d, e).current] + Readings(rest);
      } else {
        assert Readings(es) == Readings(rest);
      }
    }
  }

  /** Rises finds nothing exactly when the sequence is smooth. */
  lemma {:induction false} RisesZeroIffSmooth(ms: seq<real>)
    ensures Rises(ms) == 0 <==> Smooth(ms)
    decreases |ms|
  {
    if |ms| >= 2 {
      RisesZeroIffSmooth(ms[1..]);
      if Smooth(ms) {
        assert Smooth(ms[1..]) by {
          forall i | 0 <= i < |ms[1..]| - 1 ensures ms[1..][i + 1] - ms[1..][i] <= ShakeThreshold {
            assert ms[1..][i + 1] == ms[i + 2] && ms[1..][i] == ms[i + 1];
          }
        }
      }
      if ms[1] - ms[0] <= ShakeThreshold && Smooth(ms[1..]) {
        forall i | 0 <= i < |ms| - 1 ensures ms[i + 1] - ms[i] <= ShakeThreshold {
          if i > 0 {
            assert ms[1..][i] == ms[i + 1] && ms[1..][i - 1] == ms[i];
          }
        }
      }
    }
  }

  /**
   * A stream whose consecutive magnitudes (starting from the baseline) never rise by
   * more than the threshold fires no shake, and a stream that fires none is such a stream.
   */
  lemma NoShakeIffSmooth(d: Detector, es: seq<SensorEvent>)
    ensures Shakes(d, es) == 0 <==> Smooth([d.current] + Readings(es))
  {
    ShakesAreRises(d, es);
    RisesZeroIffSmooth([d.current] + Readings(es));
  }

  /**
   * After a stream the current field holds the last accelerometer reading and the last
   * field the one before it; a stream without accelerometer events changes nothing.
   */
  lemma {:induction false} RunKeepsLastTwoReadings(d: Detector, es: seq<SensorEvent>)
    ensures var ms := [d.current] + Readings(es);
      Run(d, es).current == ms[|ms| - 1] &&
      (|ms| >= 2 ==> Run(d, es).last == ms[|ms| - 2]) &&
      (|ms| == 1 ==> Run(d, es) == d)
    decreases |es|
  {
    if es != [] {
      var e, rest := es[0], es[1..];
      RunKeepsLastTwoReadings(Update(d, e), rest);
      if IsAccelerometer(e) {
        assert Readings(es) == [e.magnitude] + Readings(rest);
        assert [d.current] + Readings(es) == [d.current] + ([Update(d, e).current] + Readings(rest));
      } else {
        assert Readings(es) == Readings(rest);
      }
    }
  }
}
