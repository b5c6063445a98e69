/**
 * MainActivity: the foreground screen's copy of the shake detector. It
 * registers while resumed, unregisters while paused, and runs its own alert
 * decision (high-accuracy location, caught send failure, optional call).
 */
module Activity {
  import Shake
  import Dispatch

  /** The field emergencyNumber of the activity, which differs from the service's. */
  const EmergencyNumber: string := "01722536524"

  class MainActivity {
    /** accelerometer != null: the device has an accelerometer. */
    const hasAccelerometer: bool
    var accelerationLastValue: real
    var accelerationCurrentValue: real
    /** Whether this activity is registered as the accelerometer's listener. */
    var listening: bool
    /** One entry per run of sendEmergencyMessage, oldest first. */
    var alerts: seq<Dispatch.Alert>

    function Detector(): Shake.Detector
      reads this
    {
      Shake.Detector(accelerationLastValue, accelerationCurrentValue)
    }

    /** onCreate: both detector fields start at standard gravity; nothing is registered yet. */
    constructor OnCreate(hasAccelerometer: bool)
      ensures this.hasAccelerometer == hasAccelerometer
      ensures Detector() == Shake.Initial
      ensures !listening && alerts == []
    {
      this.hasAccelerometer := hasAccelerometer;
      accelerationCurrentValue := Shake.GravityEarth;
      accelerationLastValue := Shake.GravityEarth;
      listening := false;
      alerts := [];
    }

    /** onResume: registers only when there is an accelerometer; the baseline is kept. */
    method OnResume()
      modifies this`listening
      ensures listening == (old(listening) || hasAccelerometer)
    {
      if hasAccelerometer {
        listening := true;
      }
    }

    /** onPause: unregisters; the baseline is kept. */
    method OnPause()
      modifies this`listening
      ensures !listening
    {
      listening := false;
    }

    /** sendEmergencyMessage: records the decision for the platform's current answers. */
    method SendEmergencyMessage(locationGranted: bool, location: Dispatch.LocationOutcome,
                                smsAccepted: bool, callGranted: bool)
      modifies this`alerts
      ensures alerts == old(alerts) +
        [Dispatch.ActivityAlert(EmergencyNumber, locationGranted, location, smsAccepted, callGranted)]
    {
      alerts := alerts + [Dispatch.ActivityAlert(EmergencyNumber, locationGranted, location, smsAccepted, callGranted)];
    }

    /**
     * onSensorChanged: the same detector update as the service's, and one alert exactly
     * when the detector fires; other events change nothing.
     */
    method OnSensorChanged(event: Shake.SensorEvent, locationGranted: bool, location: Dispatch.LocationOutcome,
                           smsAccepted: bool, callGranted: bool)
      modifies this`accelerationLastValue, this`accelerationCurrentValue, this`alerts
      ensures Detector() == Shake.Update(old(Detector()), event)
      ensures alerts == old(alerts) +
        if Shake.Fires(old(Detector()), event)
        then [Dispatch.ActivityAlert(EmergencyNumber, locationGranted, location, smsAccepted, callGranted)]
        else []
    {
      if event.sensorType == Shake.TypeAccelerometer {
        accelerationLastValue := accelerationCurrentValue;
        accelerationCurrentValue := event.magnitude;
        var delta := accelerationCurrentValue - accelerationLastValue;
        if delta > Shake.ShakeThreshold {
          SendEmergencyMessage(locationGranted, location, smsAccepted, callGranted);
        }
      }
    }
  }

  /**
   * From any state, a sample m1, onPause, onResume, then a sample m2: the second sample
   * is compared with m1, not with gravity, so it fires exactly when it rises more than
   * the threshold above m1; afterwards the detector holds (m1, m2).
   */
  method PauseResumeComparesWithLastSample(a: MainActivity, m1: real, m2: real,
                                           locationGranted: bool, location: Dispatch.LocationOutcome,
                                           smsAccepted: bool, callGranted: bool)
    returns (secondFired: bool)
    modifies a
    ensures secondFired <==> m2 - m1 > Shake.ShakeThreshold
    ensures a.Detector() == Shake.Detector(m1, m2)
    ensures a.listening == a.hasAccelerometer
  {
    a.OnSensorChanged(Shake.SensorEvent(Shake.TypeAccelerometer, m1), locationGranted, location, smsAccepted, callGranted);
    a.OnPause();
    a.OnResume();
    var before := |a.alerts|;
    a.OnSensorChanged(Shake.SensorEvent(Shake.TypeAccelerometer, m2), locationGranted, location, smsAccepted, callGranted);
    secondFired := |a.alerts| > before;
  }
}
