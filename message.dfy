/**
 * The text of the emergency message, built the same way by both
 * sendEmergencyMessage implementations, and a decoder that reads the
 * location back out of it. Latitude and longitude are the strings Java's
 * double-to-string conversion produces; they are taken as given.
 */
module Message {
  import opened Wrappers

  const MessagePrefix: string := "Emergency! I need help. My location is: "
  const NoLocationText: string := "Location not available"
  const MapsPrefix: string := "http://maps.google.com/?q="

  /** A location fix as the message uses it. */
  datatype Fix = Fix(latitude: string, longitude: string)

  /** Java's Double.toString never produces a comma, so a comma can separate the two coordinates. */
  predicate Separable(fix: Option<Fix>) {
    fix.Some? ==> ',' !in fix.value.latitude
  }

  /** locationText: the map link when there is a fix, otherwise the fixed notice. */
  function LocationText(fix: Option<Fix>): (text: string)
    ensures fix.None? <==> text == NoLocationText
    ensures fix.Some? ==> StartsWith(text, MapsPrefix) &&
                          text[|MapsPrefix|..] == fix.value.latitude + "," + fix.value.longitude
  {
    match fix
    case None => NoLocationText
    case Some(f) => MapsPrefix + f.latitude + "," + f.longitude
  }

  /** The message body; every body starts with the fixed prefix. */
  function MessageBody(fix: Option<Fix>): (body: string)
    ensures |MessagePrefix| < |body| && body[..|MessagePrefix|] == MessagePrefix
  {
    MessagePrefix + LocationText(fix)
  }

  /** The position of the first c in s, or |s| when there is none. */
  function IndexOf(s: string, c: char): (i: nat)
    ensures i <= |s|
    ensures i < |s| ==> s[i] == c
    ensures forall j :: 0 <= j < i ==> s[j] != c
    decreases |s|
  {
    if s == [] then 0
    else if s[0] == c then 0
    else 1 + IndexOf(s[1..], c)
  }

  predicate StartsWith(s: string, prefix: string) {
    |prefix| <= |s| && s[..|prefix|] == prefix
  }

  /**
   * Reads a body back: Some(None) for the no-location notice, Some(Some(fix)) for a
   * map link, None for a text that is not an emergency message.
   */
  function DecodeBody(body: string): Option<Option<Fix>> {
    if !StartsWith(body, MessagePrefix) then None
    else
      var rest := body[|MessagePrefix|..];
      if rest == NoLocationText then Some(None)
      else if !StartsWith(rest, MapsPrefix) then None
      else
        var q := rest[|MapsPrefix|..];
        var i := IndexOf(q, ',');
        if i < |q| then Some(Some(Fix(q[..i], q[i + 1..]))) else None
  }

  /** Decoding a built body gives back the location it was built from. */
  lemma DecodeMessageBody(fix: Option<Fix>)
    requires Separable(fix)
    ensures DecodeBody(MessageBody(fix)) == Some(fix)
  {
    var body := MessageBody(fix);
    assert body[|MessagePrefix|..] == LocationText(fix);
    if fix.Some? {
      var f := fix.value;
      var rest := LocationText(fix);
      assert rest[0] == 'h' && NoLocationText[0] == 'L';
      assert rest[..|MapsPrefix|] == MapsPrefix;
      var q := rest[|MapsPrefix|..];
      assert q == f.latitude + "," + f.longitude;
      var i := IndexOf(q, ',');
      assert q[|f.latitude|] == ',';
      assert forall j :: 0 <= j < |f.latitude| ==> q[j] == f.latitude[j];
      assert i == |f.latitude|;
      assert q[..i] == f.latitude && q[i + 1..] == f.longitude;
    }
  }

  /** Different locations never produce the same message. */
  lemma MessageBodyInjective(a: Option<Fix>, b: Option<Fix>)
    requires Separable(a) && Separable(b)
    requires MessageBody(a) == MessageBody(b)
    ensures a == b
  {
    DecodeMessageBody(a);
    DecodeMessageBody(b);
  }
}
