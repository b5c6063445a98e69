/**
 * The two sendEmergencyMessage decisions, with the Android calls they make
 * recorded as effects. The answers of the platform (location permission,
 * the outcome of the location request, whether SmsManager threw, the call
 * permission) are inputs; the asynchronous callback is taken as already
 * delivered.
 */
module Dispatch {
  import opened Wrappers
  import opened Message

  /** What the location request's listeners receive: success (with a fix or null) or failure. */
  datatype LocationOutcome = Located(fix: Option<Fix>) | LocationError

  /** A platform call made on the way to an alert. */
  datatype Effect =
    | StartPermissionRequest                     // startActivity of PermissionRequestActivity
    | RequestLastLocation                        // FusedLocationProviderClient.getLastLocation
    | RequestCurrentLocation                     // getCurrentLocation with high accuracy
    | SendText(destination: string, body: string) // SmsManager.sendTextMessage
    | PlaceCall(uri: string)                     // startActivity of an ACTION_CALL intent

  /** Which branch of the decision ran (the one its status Toast reports). */
  datatype Outcome = LocationPermissionMissing | LocationFailed | MessageSent | MessageFailed

  /** One run of sendEmergencyMessage: the calls in order, and how it ended. */
  datatype Alert = Alert(effects: seq<Effect>, outcome: Outcome)

  /** The data of the call intent. */
  function CallUri(number: string): (uri: string)
    ensures StartsWith(uri, "tel:") && uri[4..] == number
  {
    "tel:" + number
  }

  /** ShakeService.sendEmergencyMessage. */
  function ServiceAlert(number: string, locationGranted: bool, location: LocationOutcome): (a: Alert)
    ensures !locationGranted ==> a.effects == [StartPermissionRequest] && a.outcome == LocationPermissionMissing
    ensures locationGranted && location.LocationError? ==>
      a.effects == [RequestLastLocation] && a.outcome == LocationFailed
    ensures locationGranted && location.Located? ==>
      a.effects == [RequestLastLocation, SendText(number, MessageBody(location.fix))] && a.outcome == MessageSent
  {
    if !locationGranted then Alert([StartPermissionRequest], LocationPermissionMissing)
    else
      match location
      case LocationError => Alert([RequestLastLocation], LocationFailed)
      case Located(fix) => Alert([RequestLastLocation, SendText(number, MessageBody(fix))], MessageSent)
  }

  /**
   * MainActivity.sendEmergencyMessage. smsAccepted is false when sendTextMessage threw;
   * the exception is caught and the call step still runs.
   */
  function ActivityAlert(number: string, locationGranted: bool, location: LocationOutcome,
                         smsAccepted: bool, callGranted: bool): (a: Alert)
    ensures !locationGranted ==> a.effects == [] && a.outcome == LocationPermissionMissing
    ensures locationGranted && location.LocationError? ==>
      a.effects == [RequestCurrentLocation] && a.outcome == LocationFailed
    ensures locationGranted && location.Located? ==>
      |a.effects| == (if callGranted then 3 else 2) &&
      a.effects[0] == RequestCurrentLocation &&
      a.effects[1] == SendText(number, MessageBody(location.fix)) &&
      (callGranted ==> a.effects[2] == PlaceCall(CallUri(number))) &&
      a.outcome == (if smsAccepted then MessageSent else MessageFailed)
  {
    if !locationGranted then Alert([], LocationPermissionMissing)
    else
      match location
      case LocationError => Alert([RequestCurrentLocation], LocationFailed)
      case Located(fix) =>
        Alert([RequestCurrentLocation, SendText(number, MessageBody(fix))] +
              (if callGranted then [PlaceCall(CallUri(number))] else []),
              if smsAccepted then MessageSent else MessageFailed)
  }

  /** The text messages among the effects, in order. */
  function Texts(effs: seq<Effect>): (r: seq<Effect>)
    ensures |r| <= |effs|
    ensures forall e :: e in r ==> e.SendText? && e in effs
    ensures forall e :: e in effs && e.SendText? ==> e in r
    decreases |effs|
  {
    if effs == [] then []
    else (if effs[0].SendText? then [effs[0]] else []) + Texts(effs[1..])
  }

  /** The calls among the effects, in order. */
  function Calls(effs: seq<Effect>): (r: seq<Effect>)
    ensures |r| <= |effs|
    ensures forall e :: e in r ==> e.PlaceCall? && e in effs
    ensures forall e :: e in effs && e.PlaceCall? ==> e in r
    decreases |effs|
  {
    if effs == [] then []
    else (if effs[0].PlaceCall? then [effs[0]] else []) + Calls(effs[1..])
  }

  predicate RequestsLocation(effs: seq<Effect>) {
    RequestLastLocation in effs || RequestCurrentLocation in effs
  }

  lemma {:induction false} TextsAppend(a: seq<Effect>, b: seq<Effect>)
    ensures Texts(a + b) == Texts(a) + Texts(b)
    decreases |a|
  {
    if a != [] {
      assert (a + b)[1..] == a[1..] + b;
      TextsAppend(a[1..], b);
    } else {
      assert a + b == b;
    }
  }

  lemma {:induction false} CallsAppend(a: seq<Effect>, b: seq<Effect>)
    ensures Calls(a + b) == Calls(a) + Calls(b)
    decreases |a|
  {
    if a != [] {
      assert (a + b)[1..] == a[1..] + b;
      CallsAppend(a[1..], b);
    } else {
      assert a + b == b;
    }
  }

  /** Texts and Calls of a single effect. */
  lemma TextsCallsOne(x: Effect)
    ensures Texts([x]) == (if x.SendText? then [x] else [])
    ensures Calls([x]) == (if x.PlaceCall? then [x] else [])
  {
  }

  /** Texts and Calls of two effects split between them. */
  lemma TextsCallsPair(x: Effect, y: Effect)
    ensures Texts([x, y]) == Texts([x]) + Texts([y])
    ensures Calls([x, y]) == Calls([x]) + Calls([y])
  {
  }

  /**
   * ShakeService without location permission only launches the permission screen:
   * no location request and no message; with permission it never launches it.
   */
  lemma ServiceWithoutPermission(number: string, granted: bool, location: LocationOutcome)
    ensures var a := ServiceAlert(number, granted, location);
      (!granted <==> StartPermissionRequest in a.effects) &&
      (!granted ==> a.effects == [StartPermissionRequest] && !RequestsLocation(a.effects) && Texts(a.effects) == [])
  {
  }

  /**
   * ShakeService sends exactly one message, to the configured number with the built
   * body, when permission is granted and the location request succeeds; otherwise none.
   */
  lemma ServiceTexts(number: string, granted: bool, location: LocationOutcome)
    ensures Texts(ServiceAlert(number, granted, location).effects) ==
      if granted && location.Located? then [SendText(number, MessageBody(location.fix))] else []
    ensures ServiceAlert(number, granted, location).outcome == MessageSent <==> granted && location.Located?
  {
  }

  /** ShakeService never places a call, and whenever it sends, the location fetch came first. */
  lemma ServiceNoCallAndFetchFirst(number: string, granted: bool, location: LocationOutcome)
    ensures var effs := ServiceAlert(number, granted, location).effects;
      Calls(effs) == [] &&
      forall i :: 0 <= i < |effs| && effs[i].SendText? ==> 0 < i && effs[0] == RequestLastLocation
  {
  }

  /** MainActivity without location permission does nothing at all; with it, it always asks for the location. */
  lemma ActivityWithoutPermission(number: string, granted: bool, location: LocationOutcome,
                                  smsAccepted: bool, callGranted: bool)
    ensures var a := ActivityAlert(number, granted, location, smsAccepted, callGranted);
      (!granted <==> a.effects == []) &&
      (!granted <==> a.outcome == LocationPermissionMissing) &&
      (granted ==> a.effects[0] == RequestCurrentLocation)
  {
  }

  /** MainActivity sends exactly one message after a successful location request and none otherwise. */
  lemma ActivityTexts(number: string, granted: bool, location: LocationOutcome,
                      smsAccepted: bool, callGranted: bool)
    ensures Texts(ActivityAlert(number, granted, location, smsAccepted, callGranted).effects) ==
      if granted && location.Located? then [SendText(number, MessageBody(location.fix))] else []
  {
    var effs := ActivityAlert(number, granted, location, smsAccepted, callGranted).effects;
    if granted && location.Located? {
      var head := [RequestCurrentLocation, SendText(number, MessageBody(location.fix))];
      var tail := if callGranted then [PlaceCall(CallUri(number))] else [];
      TextsAppend(head, tail);
      TextsCallsPair(head[0], head[1]);
      TextsCallsOne(head[0]);
      TextsCallsOne(head[1]);
      if callGranted { TextsCallsOne(tail[0]); }
    } else if granted {
      TextsCallsOne(RequestCurrentLocation);
    }
  }

  /**
   * MainActivity places the call to "tel:" + number exactly when the location request
   * succeeded and CALL_PHONE is granted, and always after the message attempt.
   */
  lemma ActivityCalls(number: string, granted: bool, location: LocationOutcome,
                      smsAccepted: bool, callGranted: bool)
    ensures var effs := ActivityAlert(number, granted, location, smsAccepted, callGranted).effects;
      Calls(effs) == (if granted && location.Located? && callGranted then [PlaceCall(CallUri(number))] else []) &&
      forall i, j :: 0 <= i < |effs| && 0 <= j < |effs| && effs[i].SendText? && effs[j].PlaceCall? ==> i < j
  {
  }

  /**
   * A failed send changes only the reported outcome: MainActivity makes the same calls
   * either way, and reports a failure exactly when a send was attempted and threw.
   */
  lemma ActivitySendFailureKeepsCall(number: string, granted: bool, location: LocationOutcome,
                                     callGranted: bool)
    ensures ActivityAlert(number, granted, location, true, callGranted).effects ==
            ActivityAlert(number, granted, location, false, callGranted).effects
    ensures forall ok: bool ::
      ActivityAlert(number, granted, location, ok, callGranted).outcome == MessageFailed <==>
      granted && location.Located? && !ok
  {
  }

  /** Both implementations send the same text to the same number for the same location. */
  lemma SameTextBothPaths(number: string, granted: bool, location: LocationOutcome,
                          smsAccepted: bool, callGranted: bool)
    ensures Texts(ServiceAlert(number, granted, location).effects) ==
            Texts(ActivityAlert(number, granted, location, smsAccepted, callGranted).effects)
  {
    ServiceTexts(number, granted, location);
    ActivityTexts(number, granted, location, smsAccepted, callGranted);
  }
}
