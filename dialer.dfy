/** The dial-pad screen's call controller: the number being typed, and the
    one outgoing call it tracks through the backend's call identifier. */
module Dialer {
  import opened Js
  import opened Http
  import opened CallApi
  import AuthContext

  /** Longest number the pad accepts, leading '+' included. */
  const MaxLength := 15
  /** Shortest number the dial button sends, leading '+' included. */
  const MinDialLength := 8

  const TooShortText := "Please enter a valid phone number"
  const MaxLengthText := "Maximum number length reached"
  /** The toasts of an /endCall request that settled with `o`. */
  function EndCallToasts(o: Outcome): (t: seq<Event>)
    ensures o.Ok? ==> (t == [Say(Info, EndedText)] <==> Truthy(o.response.data) && Truthy(OptGet(o.response.data, "message")))
    ensures o.Ok? && t != [Say(Info, EndedText)] ==> t == []
    ensures o.Failed? ==> t == [Toast(Error, ErrorText(o.error, EndFailedText))]
  {
    match o
    case Ok(r) => if Truthy(r.data) && Truthy(OptGet(r.data, "message")) then [Say(Info, EndedText)] else []
    case Failed(e) => [Toast(Error, ErrorText(e, EndFailedText))]
  }

  class DialerScreen {
    const session: AuthContext.Session
    var phoneNumber: string
    var isCallActive: bool
    var currentCallSid: Json
    var showCallScreen: bool

    /** The number keeps its leading '+' and stays within the pad's bound;
        the three call fields move together. */
    ghost predicate Valid()
      reads this
    {
      && 1 <= |phoneNumber| <= MaxLength && phoneNumber[0] == '+'
      && isCallActive == Truthy(currentCallSid) == showCallScreen
      && (isCallActive || currentCallSid == JNull)
    }

    constructor (session: AuthContext.Session)
      ensures Valid() && this.session == session
      ensures phoneNumber == "+" && !isCallActive && currentCallSid == JNull && !showCallScreen
    {
      this.session := session;
      phoneNumber := "+";
      isCallActive := false;
      currentCallSid := JNull;
      showCallScreen := false;
    }

    /** `handleNumberClick`: append a pad key while the number is shorter
        than the bound, otherwise only warn. */
    method PressKey(key: char) returns (effects: seq<Event>)
      requires Valid()
      modifies this`phoneNumber
      ensures Valid()
      ensures old(|phoneNumber|) < MaxLength ==> phoneNumber == old(phoneNumber) + [key] && effects == []
      ensures old(|phoneNumber|) >= MaxLength ==>
                phoneNumber == old(phoneNumber) && effects == [Say(Warning, MaxLengthText)]
    {
      if |phoneNumber| < MaxLength {
        phoneNumber := phoneNumber + [key];
        effects := [];
      } else {
        effects := [Say(Warning, MaxLengthText)];
      }
    }

    /** `handleBackspace`: drop the last character, never the leading '+'. */
    method Backspace()
      requires Valid()
      modifies this`phoneNumber
      ensures Valid()
      ensures old(|phoneNumber|) > 1 ==> phoneNumber == old(phoneNumber)[..old(|phoneNumber|) - 1]
      ensures old(|phoneNumber|) == 1 ==> phoneNumber == "+"
    {
      if |phoneNumber| > 1 {
        phoneNumber := phoneNumber[..|phoneNumber| - 1];
      }
    }

    /** `handleCall`: a number shorter than the minimum is refused locally;
        otherwise POST /initiateCall with the trimmed number, settled by `o`. */
    method Call(o: Outcome) returns (effects: seq<Event>)
      requires Valid()
      modifies this`isCallActive, this`currentCallSid, this`showCallScreen
      ensures Valid()
      ensures |phoneNumber| < MinDialLength ==>
                effects == [Say(Error, TooShortText)] && unchanged(this)
      ensures |phoneNumber| >= MinDialLength && o.Ok? && Truthy(SidOf(o.response)) ==>
                currentCallSid == SidOf(o.response) && isCallActive && showCallScreen
                && effects == [InitiateRequest(phoneNumber), Say(Success, InitiatedText)]
      ensures |phoneNumber| >= MinDialLength && o.Ok? && !Truthy(SidOf(o.response)) ==>
                unchanged(this) && effects == [InitiateRequest(phoneNumber), Say(Error, InvalidResponseText)]
      ensures |phoneNumber| >= MinDialLength && o.Failed? ==>
                !isCallActive && currentCallSid == JNull && !showCallScreen
                && effects == [InitiateRequest(phoneNumber), Toast(Error, ErrorText(o.error, InitiateFailedText))]
    {
      if |phoneNumber| < MinDialLength {
        effects := [Say(Error, TooShortText)];
        return;
      }
      effects := [InitiateRequest(phoneNumber)];
      match o {
        case Ok(response) =>
          var sid := SidOf(response);
          if Truthy(sid) {
            currentCallSid := sid;
            isCallActive := true;
            showCallScreen := true;
            effects := effects + [Say(Success, InitiatedText)];
          } else {
            effects := effects + [Say(Error, InvalidResponseText)];
          }
        case Failed(error) =>
          effects := effects + [Toast(Error, ErrorText(error, InitiateFailedText))];
          isCallActive := false;
          currentCallSid := JNull;
          showCallScreen := false;
      }
    }

    /** `handleEndCall`: nothing without a call identifier; otherwise POST
        /endCall, and reset the call whatever `o` was. */
    method EndCall(o: Outcome) returns (effects: seq<Event>)
      requires Valid()
      modifies this`isCallActive, this`currentCallSid, this`showCallScreen
      ensures Valid()
      ensures !Truthy(old(currentCallSid)) ==> effects == [] && unchanged(this)
      ensures Truthy(old(currentCallSid)) ==>
                !isCallActive && currentCallSid == JNull && !showCallScreen
                && effects == [EndRequest(old(currentCallSid))] + EndCallToasts(o)
    {
      effects := [];
      if Truthy(currentCallSid) {
        effects := [EndRequest(currentCallSid)] + EndCallToasts(o);
        isCallActive := false;
        currentCallSid := JNull;
        showCallScreen := false;
      }
    }

    /** `handleLogout`: end an active call first (settled by `endOutcome`),
        then log out (settled by `logoutOutcome`) and go to the sign-in page. */
    method Logout(endOutcome: Outcome, logoutOutcome: Outcome) returns (effects: seq<Event>)
      requires Valid()
      modifies this`isCallActive, this`currentCallSid, this`showCallScreen, session
      ensures Valid() && phoneNumber == old(phoneNumber)
      ensures !isCallActive && currentCallSid == JNull && !showCallScreen
      ensures !session.isAuthenticated && session.user == JNull && session.cache == None
      ensures session.loading == old(session.loading)
      ensures old(isCallActive) ==>
                effects == [EndRequest(old(currentCallSid))] + EndCallToasts(endOutcome)
                           + [Request(Post, "/logout", JUndefined), Navigate("/auth")]
      ensures !old(isCallActive) ==> effects == [Request(Post, "/logout", JUndefined), Navigate("/auth")]
    {
      effects := [];
      if isCallActive {
        effects := EndCall(endOutcome);
      }
      var out := session.Logout(logoutOutcome);
      effects := effects + out + [Navigate("/auth")];
    }
  }
}
