# Safty-by-Sensor: shake detector, run control and alert decision

Safty-by-Sensor is an Android personal-safety app. A shake of the phone sends an
emergency text message with a map link to a fixed number and, from the main
screen, also places a call. The logic lives twice, as near-duplicates: in
`ShakeService` (a foreground service driven by notification actions) and in
`MainActivity` (the screen, driven by its resume/pause lifecycle).

This project models, in Dafny:

- **The shake detector** (module `Shake`). The two fields
  `accelerationLastValue` and `accelerationCurrentValue` start at standard
  gravity. Each accelerometer event shifts current into last and stores the new
  magnitude. A shake fires when `current - last > 12.0`. The comparison is
  strict and signed. The magnitude is a `real` input. Lemmas over streams of
  events show three things: the number of shakes equals the number of steep
  rises in the magnitudes, with the baseline first; no shake fires exactly when
  no rise is steep; and after a stream the fields hold the last two readings.
- **The message body** (module `Message`). It is
  `"Emergency! I need help. My location is: "` followed by either the maps link
  `"http://maps.google.com/?q=" + lat + "," + lon` or
  `"Location not available"`. A decoder reads the location back out of a body,
  which proves that different locations give different messages.
- **The alert decision** (module `Dispatch`). Both `sendEmergencyMessage`
  methods are functions of the platform's answers. They return the platform
  calls they make, in order, and the branch they end in. The answers are: the
  location permission, the location request's outcome (a fix, a null fix, or a
  failure), whether the SMS send threw, and the call permission.
- **The two components as classes** (modules `Service` and `Activity`). Their
  methods update the detector fields and the listener registration. Every
  alert the object starts is appended to a log field. Commands and lifecycle
  calls never touch the detector fields.

The platform's inputs are method parameters: sensor events, permissions and
location outcomes. The platform calls are recorded as `Dispatch.Effect`
values.

The model follows the code on points where a general design for such an app
might differ:

- The shake test uses the signed difference, not its absolute value.
- There is no terminal STOPPED state. `ACTION_STOP` only calls `stopSelf`, and
  later commands still act.
- There is no "dispatch in progress" slot and no deduplication. Every shake
  starts its own alert.
- A location result that arrives after a stop is not cancelled.
- When the location request fails, nothing is sent. The code has no
  send-without-location fallback on that path. A successful request with a
  null fix does send, with "Location not available".
- The service starts the permission screen when location permission is
  missing. It never checks the SMS permission.

## Model

| member | source | states |
|---|---|---|
| Shake.Update | app/src/main/java/com/example/safty/ShakeService.java:129-130 | an accelerometer event moves the previous current value into last and stores the new magnitude; any other event leaves both fields as they were |
| Shake.Fires | app/src/main/java/com/example/safty/ShakeService.java:131-133 | onSensorChanged sends an alert for an event iff the event is from the accelerometer and its magnitude minus the previous current value is strictly greater than 12.0 (the same test as MainActivity.java:89-91) |
| Shake.FiresIff | app/src/main/java/com/example/safty/ShakeService.java:131-133 | a shake fires iff the event is from the accelerometer and its magnitude exceeds the previous one by strictly more than 12.0; a rise equal to the threshold or any fall never fires, and a non-accelerometer event never fires |
| Shake.ShakesAreRises | app/src/main/java/com/example/safty/ShakeService.java:123-138 | over any stream of events the detector fires once for each consecutive pair of accelerometer magnitudes that rises by more than the threshold, the first reading being compared with the starting baseline; other sensors' events are skipped |
| Shake.RisesZeroIffSmooth | app/src/main/java/com/example/safty/MainActivity.java:89-91 | the count of steep rises is zero exactly when no consecutive pair of magnitudes rises by more than the threshold |
| Shake.NoShakeIffSmooth | app/src/main/java/com/example/safty/MainActivity.java:81-97 | a stream fires no shake iff no reading, starting from the baseline, rises more than the threshold above the one before |
| Shake.RunKeepsLastTwoReadings | app/src/main/java/com/example/safty/MainActivity.java:87-89 | after any stream the current field is the last accelerometer magnitude and the last field the one before it, the baseline counting as the first reading; a stream without accelerometer events changes nothing |
| Message.LocationText | app/src/main/java/com/example/safty/ShakeService.java:155-158 | the location part is "Location not available" iff there is no fix; with a fix it is "http://maps.google.com/?q=" followed by latitude, a comma and longitude |
| Message.MessageBody | app/src/main/java/com/example/safty/ShakeService.java:155-161 | every message body starts with "Emergency! I need help. My location is: " and continues beyond it |
| Message.DecodeMessageBody | app/src/main/java/com/example/safty/MainActivity.java:116-124 | decoding a body gives back its location: "Location not available" for a null fix, the latitude and longitude of the maps link otherwise (the decoder `DecodeBody` splits the link at its first comma with the helper `IndexOf`) |
| Message.MessageBodyInjective | app/src/main/java/com/example/safty/ShakeService.java:155-161 | two locations that give the same message body are the same location |
| Dispatch.ServiceAlert | app/src/main/java/com/example/safty/ShakeService.java:140-166 | without location permission: only the permission screen is started, ending as "permission missing"; with it: the last-known-location request, then, on success, one text to the number with the body for that fix ("sent"), or, on failure, nothing more ("location failed") |
| Dispatch.ServiceWithoutPermission | app/src/main/java/com/example/safty/ShakeService.java:142-150 | the service starts the permission screen iff location permission is missing, and then that is its only effect: no location request and no message |
| Dispatch.ServiceTexts | app/src/main/java/com/example/safty/ShakeService.java:153-165 | the service sends exactly one message, to the emergency number with the built body, iff permission is granted and the location request succeeds (with a fix or with null); otherwise none; it reports "sent" in exactly that case |
| Dispatch.ServiceNoCallAndFetchFirst | app/src/main/java/com/example/safty/ShakeService.java:140-166 | the service never places a call, and any message it sends comes after its last-known-location request |
| Dispatch.ActivityAlert | app/src/main/java/com/example/safty/MainActivity.java:104-142 | without location permission: no call at all ("permission missing"); with it: the high-accuracy location request, then, on failure, nothing more ("location failed"), or, on success, one text attempt with the body for that fix followed by the call to CallUri(number) iff CALL_PHONE is granted, ending as "sent" or "send failed" by the send outcome |
| Dispatch.ActivityWithoutPermission | app/src/main/java/com/example/safty/MainActivity.java:106-112 | the activity makes no platform call at all iff location permission is missing, and reports that; with permission its first call is the high-accuracy location request |
| Dispatch.ActivityTexts | app/src/main/java/com/example/safty/MainActivity.java:112-131 | the activity attempts exactly one message with the built body to its emergency number iff the location request succeeds (fix or null); location failure sends nothing |
| Dispatch.CallUri | app/src/main/java/com/example/safty/MainActivity.java:134-135 | the call intent's data is "tel:" followed by exactly the emergency number |
| Dispatch.ActivityCalls | app/src/main/java/com/example/safty/MainActivity.java:133-141 | the activity calls "tel:" + number iff the location request succeeded and CALL_PHONE is granted, and the call always comes after the message attempt; location failure places no call |
| Dispatch.ActivitySendFailureKeepsCall | app/src/main/java/com/example/safty/MainActivity.java:126-138 | a send that throws changes only the reported outcome, never the calls made, so the call step still runs; the outcome is "send failed" exactly when a send was attempted and threw |
| Dispatch.SameTextBothPaths | app/src/main/java/com/example/safty/MainActivity.java:116-127 | for the same number, permission and location outcome, the service and the activity send the same messages |
| Service.Classify | app/src/main/java/com/example/safty/ShakeService.java:60-78 | a null intent, a null action or ACTION_PLAY resumes; ACTION_PAUSE pauses; ACTION_STOP stops; any other action is ignored (each as an iff) |
| Service.ShakeService.OnCreate | app/src/main/java/com/example/safty/ShakeService.java:39-56 | both detector fields start at standard gravity, so the first sample is compared with gravity; no listener is registered and no alert has run |
| Service.ShakeService.ResumeShakeDetection | app/src/main/java/com/example/safty/ShakeService.java:112-116 | the listener becomes registered iff the device has an accelerometer (an existing registration is kept) |
| Service.ShakeService.PauseShakeDetection | app/src/main/java/com/example/safty/ShakeService.java:118-120 | the listener is unregistered |
| Service.ShakeService.OnStartCommand | app/src/main/java/com/example/safty/ShakeService.java:59-80 | resume registers (only with an accelerometer), pause unregisters, stop requests the stop, others change nothing; the detector fields and the alert log are never touched; START_STICKY is returned |
| Service.ShakeService.SendEmergencyMessage | app/src/main/java/com/example/safty/ShakeService.java:140-166 | appends exactly the service's decision for the current permission and location outcome to the alert log |
| Service.ShakeService.OnSensorChanged | app/src/main/java/com/example/safty/ShakeService.java:123-138 | the fields follow Shake.Update whether or not a shake fires; exactly one alert is appended iff the detector fires, none otherwise; registration is untouched |
| Service.ShakeService.OnDestroy | app/src/main/java/com/example/safty/ShakeService.java:174-177 | the listener is unregistered |
| Service.PauseThenPlayKeepsBaseline | app/src/main/java/com/example/safty/ShakeService.java:62-68 | from any service state, ACTION_PAUSE then ACTION_PLAY leaves the detector baseline and the alert log as they were, and the listener registered exactly when there is an accelerometer |
| Service.StopThenDestroyUnregisters | app/src/main/java/com/example/safty/ShakeService.java:70-73 | from any service state, ACTION_STOP and the onDestroy that follows request the stop and leave no listener registered, without touching the detector or the alert log |
| Activity.MainActivity.OnCreate | app/src/main/java/com/example/safty/MainActivity.java:37-64 | both detector fields start at standard gravity; nothing is registered and no alert has run |
| Activity.MainActivity.OnResume | app/src/main/java/com/example/safty/MainActivity.java:67-72 | the listener becomes registered iff there is an accelerometer; the detector fields are not touched |
| Activity.MainActivity.OnPause | app/src/main/java/com/example/safty/MainActivity.java:75-78 | the listener is unregistered; the detector fields are not touched |
| Activity.MainActivity.SendEmergencyMessage | app/src/main/java/com/example/safty/MainActivity.java:104-142 | appends exactly the activity's decision for the current permissions, location outcome and send outcome to the alert log |
| Activity.MainActivity.OnSensorChanged | app/src/main/java/com/example/safty/MainActivity.java:81-97 | the fields follow Shake.Update unconditionally; one alert is appended iff the detector fires; other sensors' events change nothing |
| Activity.PauseResumeComparesWithLastSample | app/src/main/java/com/example/safty/MainActivity.java:66-91 | from any activity state, after a sample m1, onPause, onResume and a sample m2, the second sample fires iff m2 - m1 exceeds the threshold (it is compared with m1, not gravity); the detector then holds (m1, m2) and the listener is registered iff there is an accelerometer |

## Left out

- Magnitude computation: `sqrt(x*x + y*y + z*z)` and 32-bit float rounding are not modelled. The magnitude is a `real` input, and gravity (9.80665) and the threshold (12.0) are exact reals.
- Coordinates: the double-to-string formatting of latitude and longitude is not modelled. They are opaque strings. The decoder lemmas assume the latitude has no comma, which Java's double-to-string conversion never produces.
- Asynchrony: the location listeners run later on the platform's thread. The model takes their outcome as an input to the same step.
- Android calls: sensor registration, location requests, `SmsManager`, `startActivity` and `stopSelf` appear only as recorded state or effects. The system's response to `stopSelf` (a later call to `onDestroy`) is the caller's business, as in `Service.StopThenDestroyUnregisters`.
- Sensor manager: it is taken to exist. The source calls `unregisterListener` on it without a null check; that crash path is not modelled.
- Send failure in the service: the service does not catch an exception from `sendTextMessage`. That crash path is not modelled; its send is recorded as made.
- UI: Toast texts, `statusTextView` updates, the notification channel, the foreground notification and its actions (ShakeService.java:83-110) are not modelled. The `Dispatch.Outcome` value records which status branch ran.
- Settings and permission UI: `checkLocationEnabled`, `isLocationEnabled`, the permission request in `MainActivity.onCreate` and both `onRequestPermissionsResult` handlers are not modelled.
- PermissionRequestActivity.java is not part of this model. It only requests a permission and finishes.
- Event delivery: that the platform delivers sensor events only while the listener is registered is not modelled. The `onSensorChanged` methods, like the source, do not check registration.
