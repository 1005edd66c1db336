/** The call-history screen: the fetched list of calls, redialling a listed
    number with its own call controller, and the two display helpers for a
    record's status chip and duration. */
module CallHistory {
  import opened Js
  import opened Http
  import opened CallApi
  import AuthContext

  const InvalidHistoryText := "Invalid call history data received"
  const FetchFailedText := "Failed to fetch call history"
  const EndUncertainText := "Call may not have ended properly"

  const HistoryRequest := Request(Get, "/calls/history", JUndefined)

  // ---------------------------------------------------------------------
  // Status chip colour

  /** `getStatusColor`: the chip colour of a status label, ignoring case. */
  function StatusColor(status: string): (c: string)
    ensures c in {"success", "error", "primary", "default"}
  {
    var s := ToLower(status);
    if s == "completed" then "success"
    else if s == "canceled" then "error"
    else if s == "in-progress" then "primary"
    else "default"
  }

  /** Each colour is chosen by exactly the spellings of one word in any mix
      of letter case; everything else is "default". */
  lemma StatusColorIff(status: string)
    ensures StatusColor(status) == "success" <==> SameIgnoringCase(status, "completed")
    ensures StatusColor(status) == "error" <==> SameIgnoringCase(status, "canceled")
    ensures StatusColor(status) == "primary" <==> SameIgnoringCase(status, "in-progress")
    ensures StatusColor(status) == "default" <==>
              !SameIgnoringCase(status, "completed") && !SameIgnoringCase(status, "canceled")
              && !SameIgnoringCase(status, "in-progress")
  {
    ToLowerMatches(status, "completed");
    ToLowerMatches(status, "canceled");
    ToLowerMatches(status, "in-progress");
  }

  /** Upper-casing any letters of a label does not change its colour. */
  lemma StatusColorIgnoresCase(a: string, b: string)
    requires ToLower(a) == ToLower(b)
    ensures StatusColor(a) == StatusColor(b)
  {
  }

  // ---------------------------------------------------------------------
  // Duration display

  /** JavaScript's `a % 60`: the remainder takes the sign of the dividend. */
  function JsRem60(a: int): (r: int)
    ensures a >= 0 ==> r == a % 60 && 0 <= r < 60
    ensures a < 0 ==> -60 < r <= 0
    ensures (a - r) % 60 == 0
  {
    if a >= 0 then a % 60 else -((-a) % 60)
  }

  /** `formatDuration` of a history record: `duration` is None when the
      record has none (`undefined` or `null`). `Math.floor(d / 60)` is `d / 60`
      here, since Dafny's division by a positive divisor rounds down. */
  function FormatCallDuration(duration: Option<int>): (r: string)
    ensures |r| >= 2 && r[|r| - 1] == 's'
    ensures (duration.None? || duration.value == 0) ==> r == "0s"
  {
    if duration.None? || duration.value == 0 then "0s"
    else
      var minutes := duration.value / 60;
      var seconds := JsRem60(duration.value);
      if minutes > 0 then IntToString(minutes) + "m " + IntToString(seconds) + "s"
      else IntToString(seconds) + "s"
  }

  function IndexOf(s: string, c: char): (r: Option<nat>)
    ensures r.Some? ==> r.value < |s| && s[r.value] == c && forall i :: 0 <= i < r.value ==> s[i] != c
    ensures r.None? ==> forall i :: 0 <= i < |s| ==> s[i] != c
  {
    if s == [] then None
    else if s[0] == c then Some(0)
    else match IndexOf(s[1..], c)
      case None => None
      case Some(k) => Some(k + 1)
  }

  /** The seconds of `m` minutes and `s` seconds. */
  function MinutesAndSeconds(m: nat, s: nat): nat {
    m * 60 + s
  }

  /** Reading a `"{m}m {s}s"` or `"{s}s"` display back as seconds. */
  function ParseCallDuration(t: string): Option<nat> {
    if |t| < 2 || t[|t| - 1] != 's' then None
    else
      var body := t[..|t| - 1];
      match IndexOf(body, 'm')
      case None => if AllDigits(body) then Some(ParseNat(body)) else None
      case Some(k) =>
        var minutes, rest := body[..k], body[k + 1..];
        if minutes != [] && AllDigits(minutes) && |rest| >= 2 && rest[0] == ' ' && AllDigits(rest[1..])
        then Some(MinutesAndSeconds(ParseNat(minutes), ParseNat(rest[1..])))
        else None
  }

  /** The first `c` after a run of digits is the one that ends the run. */
  lemma {:induction false} IndexAfterDigits(ms: string, c: char, rest: string)
    requires AllDigits(ms) && !IsDigit(c)
    ensures IndexOf(ms + [c] + rest, c) == Some(|ms|)
    decreases |ms|
  {
    var t := ms + [c] + rest;
    if ms != [] {
      assert t[1..] == ms[1..] + [c] + rest;
      IndexAfterDigits(ms[1..], c, rest);
    }
  }

  lemma ParseMinutesSeconds(ms: string, ss: string)
    requires ms != [] && AllDigits(ms) && ss != [] && AllDigits(ss)
    ensures ParseCallDuration(ms + "m " + ss + "s") == Some(MinutesAndSeconds(ParseNat(ms), ParseNat(ss)))
  {
    var t := ms + "m " + ss + "s";
    var body := t[..|t| - 1];
    var rest := " " + ss;
    assert body == ms + ['m'] + rest;
    IndexAfterDigits(ms, 'm', rest);
    assert body[..|ms|] == ms;
    assert body[|ms| + 1..] == rest;
    assert rest[1..] == ss;
  }

  lemma ParseSeconds(ss: string)
    requires ss != [] && AllDigits(ss)
    ensures ParseCallDuration(ss + "s") == Some(ParseNat(ss))
  {
    var t := ss + "s";
    assert t[..|t| - 1] == ss;
    assert forall i :: 0 <= i < |ss| ==> IsDigit(ss[i]);
    assert IndexOf(ss, 'm') == None;
  }

  /** From one minute up, the display is whole minutes and the seconds of the minute. */
  lemma FormatWithMinutes(d: nat)
    requires d >= 60
    ensures FormatCallDuration(Some(d)) == NatToString(d / 60) + "m " + NatToString(d % 60) + "s"
  {
    assert d / 60 > 0;
    assert JsRem60(d) == d % 60;
  }

  lemma RoundTripWithMinutes(d: nat)
    requires d >= 60
    ensures ParseCallDuration(FormatCallDuration(Some(d))) == Some(d)
  {
    var m, s := d / 60, d % 60;
    FormatWithMinutes(d);
    ParseMinutesSeconds(NatToString(m), NatToString(s));
    ParseNatToString(m);
    ParseNatToString(s);
    assert MinutesAndSeconds(m, s) == d;
  }

  /** Below one minute, the display is the seconds only. */
  lemma FormatSecondsOnly(d: nat)
    requires 0 < d < 60
    ensures FormatCallDuration(Some(d)) == NatToString(d) + "s"
  {
    assert d / 60 == 0 && d % 60 == d;
    assert JsRem60(d) == d;
  }

  lemma RoundTripSecondsOnly(d: nat)
    requires 0 < d < 60
    ensures ParseCallDuration(FormatCallDuration(Some(d))) == Some(d)
  {
    var ss := NatToString(d);
    FormatSecondsOnly(d);
    ParseSeconds(ss);
    ParseNatToString(d);
  }

  /** For a non-negative duration the display is exact: minutes only when
      there is at least one, and the seconds of the minute after them. */
  lemma CallDurationRoundTrip(d: nat)
    ensures ParseCallDuration(FormatCallDuration(Some(d))) == Some(d)
  {
    if d == 0 {
      ParseSeconds("0");
      assert "0" + "s" == "0s";
    } else if d < 60 {
      RoundTripSecondsOnly(d);
    } else {
      RoundTripWithMinutes(d);
    }
  }

  /** A negative duration never shows minutes: `Math.floor(d / 60)` is
      negative, so only JavaScript's remainder is shown, a value in (-60, 0];
      a whole number of minutes gives `-0`, which prints as "0". */
  lemma NegativeDurationShowsRemainder(d: int)
    requires d < 0
    ensures FormatCallDuration(Some(d)) == IntToString(JsRem60(d)) + "s"
    ensures d % 60 == 0 ==> FormatCallDuration(Some(d)) == "0s"
    ensures d % 60 != 0 ==> FormatCallDuration(Some(d)) == "-" + NatToString(-JsRem60(d)) + "s"
  {
    assert d / 60 < 0;
    if d % 60 == 0 {
      assert (-d) % 60 == 0;
      assert JsRem60(d) == 0;
    } else {
      assert (-d) % 60 != 0;
      assert JsRem60(d) < 0;
    }
  }

  /** A falsy duration and a missing one both read "0s". */
  lemma FalsyDurationIsZero(duration: Option<int>)
    requires duration.None? || duration.value == 0
    ensures FormatCallDuration(duration) == "0s"
  {
  }

  // ---------------------------------------------------------------------
  // The screen

  function EndCallToasts(o: Outcome): (t: seq<Event>)
    ensures |t| == 1
    ensures o.Ok? ==> (t == [Say(Info, EndedText)] <==> Truthy(o.response.data) && Truthy(OptGet(o.response.data, "success")))
    ensures o.Ok? && t != [Say(Info, EndedText)] ==> t == [Say(Warning, EndUncertainText)]
    ensures o.Failed? ==> t == [Toast(Error, ErrorText(o.error, EndFailedText))]
  {
    match o
    case Ok(r) =>
      if Truthy(r.data) && Truthy(OptGet(r.data, "success")) then [Say(Info, EndedText)]
      else [Say(Warning, EndUncertainText)]
    case Failed(e) => [Toast(Error, ErrorText(e, EndFailedText))]
  }

  /** The list a fetch settled by `o` leaves: `data.calls` when it is an
      array, otherwise empty. */
  function FetchedCalls(o: Outcome): (calls: seq<Json>)
    ensures calls != [] ==> o.Ok? && OptGet(o.response.data, "calls") == JArr(calls)
    ensures o.Ok? && Truthy(o.response.data) && OptGet(o.response.data, "calls").JArr? ==>
              calls == OptGet(o.response.data, "calls").items
  {
    if o.Ok? && Truthy(o.response.data) && OptGet(o.response.data, "calls").JArr?
    then OptGet(o.response.data, "calls").items else []
  }

  /** The events of a fetch settled by `o`: the request, then a toast unless
      an array of calls came back. */
  function FetchHistoryEvents(o: Outcome): (effects: seq<Event>)
    ensures |effects| >= 1 && effects[0] == HistoryRequest
    ensures |effects| == 1 <==> o.Ok? && Truthy(o.response.data) && OptGet(o.response.data, "calls").JArr?
    ensures o.Ok? && |effects| != 1 ==> effects == [HistoryRequest, Say(Error, InvalidHistoryText)]
    ensures o.Failed? ==> effects == [HistoryRequest, Toast(Error, ErrorText(o.error, FetchFailedText))]
  {
    match o
    case Ok(r) =>
      if Truthy(r.data) && OptGet(r.data, "calls").JArr? then [HistoryRequest]
      else [HistoryRequest, Say(Error, InvalidHistoryText)]
    case Failed(e) => [HistoryRequest, Toast(Error, ErrorText(e, FetchFailedText))]
  }

  /** A fetch that shows an empty list without saying why is one whose answer
      was an empty array. */
  lemma SilentEmptyListIsEmptyArray(o: Outcome)
    requires FetchedCalls(o) == [] && |FetchHistoryEvents(o)| == 1
    ensures o.Ok? && OptGet(o.response.data, "calls") == JArr([])
  {
  }

  class HistoryScreen {
    const session: AuthContext.Session
    var calls: seq<Json>
    var loading: bool
    var isCallActive: bool
    var currentCallSid: Json
    var activePhoneNumber: string

    /** The call flag follows the identifier, and an idle screen holds no
        identifier and no number. */
    ghost predicate Valid()
      reads this
    {
      && isCallActive == Truthy(currentCallSid)
      && (!isCallActive ==> currentCallSid == JNull && activePhoneNumber == "")
    }

    constructor (session: AuthContext.Session)
      ensures Valid() && this.session == session
      ensures calls == [] && loading && !isCallActive && activePhoneNumber == ""
    {
      this.session := session;
      calls := [];
      loading := true;
      isCallActive := false;
      currentCallSid := JNull;
      activePhoneNumber := "";
    }

    /** `fetchCallHistory`: GET /calls/history, settled by `o`. Only an array
        of calls is taken; anything else empties the list. */
    method FetchHistory(o: Outcome) returns (effects: seq<Event>)
      requires Valid()
      modifies this`calls, this`loading
      ensures Valid() && !loading
      ensures calls == FetchedCalls(o) && effects == FetchHistoryEvents(o)
      ensures o.Ok? && Truthy(o.response.data) && OptGet(o.response.data, "calls").JArr? ==>
                calls == OptGet(o.response.data, "calls").items && effects == [HistoryRequest]
      ensures o.Ok? && !(Truthy(o.response.data) && OptGet(o.response.data, "calls").JArr?) ==>
                calls == [] && effects == [HistoryRequest, Say(Error, InvalidHistoryText)]
      ensures o.Failed? ==>
                calls == [] && effects == [HistoryRequest, Toast(Error, ErrorText(o.error, FetchFailedText))]
    {
      effects := [HistoryRequest];
      match o {
        case Ok(response) =>
          var sent := OptGet(response.data, "calls");
          if Truthy(response.data) && sent.JArr? {
            calls := sent.items;
          } else {
            effects := effects + [Say(Error, InvalidHistoryText)];
            calls := [];
          }
        case Failed(error) =>
          effects := effects + [Toast(Error, ErrorText(error, FetchFailedText))];
          calls := [];
      }
      loading := false;
    }

    /** `handleInitiateCall` for a record's `phoneNumber`: POST /initiateCall
        with the trimmed number, settled by `o`; the untrimmed number is what
        the screen remembers. A record whose number is not a string makes
        `trim()` throw, with message `thrown`, before any request: the `catch`
        then toasts and resets the call. */
    method InitiateCall(phoneNumber: Json, thrown: string, o: Outcome) returns (effects: seq<Event>)
      requires Valid()
      modifies this`isCallActive, this`currentCallSid, this`activePhoneNumber
      ensures Valid()
      ensures !phoneNumber.JStr? ==>
                !isCallActive && currentCallSid == JNull && activePhoneNumber == ""
                && effects == [Toast(Error, ErrorText(Thrown(thrown), InitiateFailedText))]
      ensures phoneNumber.JStr? && o.Ok? && Truthy(SidOf(o.response)) ==>
                currentCallSid == SidOf(o.response) && isCallActive && activePhoneNumber == phoneNumber.s
                && effects == [InitiateRequest(phoneNumber.s), Say(Success, InitiatedText)]
      ensures phoneNumber.JStr? && o.Ok? && !Truthy(SidOf(o.response)) ==>
                unchanged(this) && effects == [InitiateRequest(phoneNumber.s), Say(Error, InvalidResponseText)]
      ensures phoneNumber.JStr? && o.Failed? ==>
                !isCallActive && currentCallSid == JNull && activePhoneNumber == ""
                && effects == [InitiateRequest(phoneNumber.s), Toast(Error, ErrorText(o.error, InitiateFailedText))]
    {
      if !phoneNumber.JStr? {
        effects := [Toast(Error, ErrorText(Thrown(thrown), InitiateFailedText))];
        isCallActive := false;
        currentCallSid := JNull;
        activePhoneNumber := "";
        return;
      }
      effects := [InitiateRequest(phoneNumber.s)];
      match o {
        case Ok(response) =>
          var sid := SidOf(response);
          if Truthy(sid) {
            currentCallSid := sid;
            isCallActive := true;
            activePhoneNumber := phoneNumber.s;
            effects := effects + [Say(Success, InitiatedText)];
          } else {
            effects := effects + [Say(Error, InvalidResponseText)];
          }
        case Failed(error) =>
          effects := effects + [Toast(Error, ErrorText(error, InitiateFailedText))];
          isCallActive := false;
          currentCallSid := JNull;
          activePhoneNumber := "";
      }
    }

    /** `handleEndCall`: nothing without a call identifier; otherwise POST
        /endCall (settled by `o`), reset the call whatever `o` was, and fetch
        the history again (settled by `refetch`). */
    method EndCall(o: Outcome, refetch: Outcome) returns (effects: seq<Event>)
      requires Valid()
      modifies this`isCallActive, this`currentCallSid, this`activePhoneNumber, this`calls, this`loading
      ensures Valid()
      ensures !Truthy(old(currentCallSid)) ==> effects == [] && unchanged(this)
      ensures Truthy(old(currentCallSid)) ==>
                !isCallActive && currentCallSid == JNull && activePhoneNumber == "" && !loading
                && calls == FetchedCalls(refetch)
                && effects == [EndRequest(old(currentCallSid))] + EndCallToasts(o) + FetchHistoryEvents(refetch)
    {
      effects := [];
      if Truthy(currentCallSid) {
        effects := [EndRequest(currentCallSid)] + EndCallToasts(o);
        isCallActive := false;
        currentCallSid := JNull;
        activePhoneNumber := "";
        var fetched := FetchHistory(refetch);
        effects := effects + fetched;
      }
    }

    /** `handleLogout`: log out (settled by `o`) and go to the sign-in page. */
    method Logout(o: Outcome) returns (effects: seq<Event>)
      modifies session
      ensures !session.isAuthenticated && session.user == JNull && session.cache == None
      ensures session.loading == old(session.loading)
      ensures effects == [Request(Post, "/logout", JUndefined), Navigate("/auth")]
    {
      effects := session.Logout(o);
      effects := effects + [Navigate("/auth")];
    }
  }
}
