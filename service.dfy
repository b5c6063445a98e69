/**
 * ShakeService: a background service that owns a shake detector, registers
 * and unregisters it with the sensor manager on command, and runs the alert
 * decision whenever a shake fires.
 */
module Service {
  import opened Wrappers
  import Shake
  import Dispatch

  /** The field emergencyNumber. */
  const EmergencyNumber: string := "016108029701"

  const ActionPlay: string := "ACTION_PLAY"
  const ActionPause: string := "ACTION_PAUSE"
  const ActionStop: string := "ACTION_STOP"

  /** Service.START_STICKY, what onStartCommand returns. */
  const StartSticky: int := 1

  /** An Intent as onStartCommand sees it: only its action matters. */
  datatype Intent = Intent(action: Option<string>)

  /** What onStartCommand does with an intent. */
  datatype Command = Resume | Pause | Stop | Ignore

  /** The switch of onStartCommand: a null intent or action resumes, any other unknown action does nothing. */
  function Classify(intent: Option<Intent>): (c: Command)
    ensures c == Resume <==> intent.None? || intent.value.action.None? || intent.value.action.value == ActionPlay
    ensures c == Pause <==> intent.Some? && intent.value.action == Some(ActionPause)
    ensures c == Stop <==> intent.Some? && intent.value.action == Some(ActionStop)
    ensures c == Ignore <==> intent.Some? && intent.value.action.Some? &&
                             intent.value.action.value !in {ActionPlay, ActionPause, ActionStop}
  {
    match intent
    case None => Resume
    case Some(i) =>
      match i.action
      case None => Resume
      case Some(a) =>
        if a == ActionPlay then Resume
        else if a == ActionPause then Pause
        else if a == ActionStop then Stop
        else Ignore
  }

  class ShakeService {
    /** accelerometer != null: the device has an accelerometer. */
    const hasAccelerometer: bool
    var accelerationLastValue: real
    var accelerationCurrentValue: real
    /** Whether this service is registered as the accelerometer's listener. */
    var listening: bool
    /** Whether stopSelf has been called. */
    var stopRequested: bool
    /** One entry per run of sendEmergencyMessage, oldest first. */
    var alerts: seq<Dispatch.Alert>

    function Detector(): Shake.Detector
      reads this
    {
      Shake.Detector(accelerationLastValue, accelerationCurrentValue)
    }

    /** onCreate: both detector fields start at standard gravity; nothing is registered yet. */
    constructor OnCreate(hasAccelerometer: bool)
      ensures this.hasAccelerometer == hasAccelerometer
      ensures Detector() == Shake.Initial
      ensures !listening && !stopRequested && alerts == []
    {
      this.hasAccelerometer := hasAccelerometer;
      accelerationCurrentValue := Shake.GravityEarth;
      accelerationLastValue := Shake.GravityEarth;
      listening := false;
      stopRequested := false;
      alerts := [];
    }

    /** resumeShakeDetection: registers only when there is an accelerometer. */
    method ResumeShakeDetection()
      modifies this`listening
      ensures listening == (old(listening) || hasAccelerometer)
    {
      if hasAccelerometer {
        listening := true;
      }
    }

    /** pauseShakeDetection: unregisters. */
    method PauseShakeDetection()
      modifies this`listening
      ensures !listening
    {
      listening := false;
    }

    /** onStartCommand: commands change registration or request a stop, never the detector or the alerts. */
    method OnStartCommand(intent: Option<Intent>) returns (mode: int)
      modifies this`listening, this`stopRequested
      ensures mode == StartSticky
      ensures listening == match Classify(intent)
                           case Resume => old(listening) || hasAccelerometer
                           case Pause => false
                           case _ => old(listening)
      ensures stopRequested == (old(stopRequested) || Classify(intent) == Stop)
    {
      match Classify(intent) {
        case Resume => ResumeShakeDetection();
        case Pause => PauseShakeDetection();
        case Stop => stopRequested := true;
        case Ignore =>
      }
      mode := StartSticky;
    }

    /** sendEmergencyMessage: records the decision for the platform's current answers. */
    method SendEmergencyMessage(locationGranted: bool, location: Dispatch.LocationOutcome)
      modifies this`alerts
      ensures alerts == old(alerts) + [Dispatch.ServiceAlert(EmergencyNumber, locationGranted, location)]
    {
      alerts := alerts + [Dispatch.ServiceAlert(EmergencyNumber, locationGranted, location)];
    }

    /**
     * onSensorChanged: an accelerometer event shifts current into last and stores the new
     * magnitude, and one alert is started exactly when the detector fires; other events
     * change nothing.
     */
    method OnSensorChanged(event: Shake.SensorEvent, locationGranted: bool, location: Dispatch.LocationOutcome)
      modifies this`accelerationLastValue, this`accelerationCurrentValue, this`alerts
      ensures Detector() == Shake.Update(old(Detector()), event)
      ensures alerts == old(alerts) +
        if Shake.Fires(old(Detector()), event)
        then [Dispatch.ServiceAlert(EmergencyNumber, locationGranted, location)] else []
    {
      if event.sensorType == Shake.TypeAccelerometer {
        accelerationLastValue := accelerationCurrentValue;
        accelerationCurrentValue := event.magnitude;
        var delta := accelerationCurrentValue - accelerationLastValue;
        if delta > Shake.ShakeThreshold {
          SendEmergencyMessage(locationGranted, location);
        }
      }
    }

    /** onDestroy: always unregisters. */
    method OnDestroy()
      modifies this`listening
      ensures !listening
    {
      PauseShakeDetection();
    }
  }

  /**
   * ACTION_PAUSE then ACTION_PLAY, from any state: the detector keeps its baseline
   * instead of going back to gravity, no alert runs, and the listener ends up
   * registered exactly when there is an accelerometer.
   */
  method PauseThenPlayKeepsBaseline(s: ShakeService)
    modifies s
    ensures s.Detector() == old(s.Detector()) && s.alerts == old(s.alerts)
    ensures s.listening == s.hasAccelerometer
  {
    var _ := s.OnStartCommand(Some(Intent(Some(ActionPause))));
    var _ := s.OnStartCommand(Some(Intent(Some(ActionPlay))));
  }

  /**
   * ACTION_STOP and the onDestroy that follows, from any state: the stop is requested,
   * no listener stays registered, and the detector and the alerts are untouched.
   */
  method StopThenDestroyUnregisters(s: ShakeService)
    modifies s
    ensures s.stopRequested && !s.listening
    ensures s.Detector() == old(s.Detector()) && s.alerts == old(s.alerts)
  {
    var _ := s.OnStartCommand(Some(Intent(Some(ActionStop))));
    s.OnDestroy();
  }
}
