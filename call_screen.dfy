/** The in-call dialog: a per-second duration counter that lives while the
    dialog is open, its `mm:ss` display, the avatar letter and a local mute flag. */
module CallScreen {
  import opened Js
  import opened Http

  const MutedText := "Microphone muted"
  const UnmutedText := "Microphone unmuted"

  /** `n.toString().padStart(2, '0')`. */
  function Pad2(n: nat): (s: string)
    ensures AllDigits(s) && ParseNat(s) == n
    ensures |s| >= 2 && (n < 100 <==> |s| == 2)
    ensures |NatToString(n)| >= 2 ==> s == NatToString(n)
    ensures |NatToString(n)| < 2 ==> s == "0" + NatToString(n)
  {
    ParseNatToString(n);
    if n < 10 then "0" + NatToString(n) else NatToString(n)
  }

  /** `formatDuration` of the dialog: minutes, a colon, and the seconds of
      the minute as exactly two digits. */
  function FormatClock(seconds: nat): (r: string)
    ensures |r| >= 5 && r[|r| - 3] == ':'
    ensures AllDigits(r[..|r| - 3]) && ParseNat(r[..|r| - 3]) == seconds / 60
    ensures AllDigits(r[|r| - 2..]) && ParseNat(r[|r| - 2..]) < 60
    ensures r == Pad2(seconds / 60) + ":" + Pad2(seconds % 60)
  {
    var minutes, secs := seconds / 60, seconds % 60;
    assert secs < 60;
    var mm, ss := Pad2(minutes), Pad2(secs);
    assert |ss| == 2;
    var r := mm + ":" + ss;
    assert r[..|r| - 3] == mm;
    assert r[|r| - 2..] == ss;
    r
  }

  /** Reading an `m:ss` display back as a number of seconds. */
  function ParseClock(t: string): Option<nat> {
    if |t| >= 4 && t[|t| - 3] == ':' && AllDigits(t[..|t| - 3]) && AllDigits(t[|t| - 2..])
    then Some(ParseNat(t[..|t| - 3]) * 60 + ParseNat(t[|t| - 2..]))
    else None
  }

  /** The display loses nothing: reading it back gives the counter. */
  lemma ClockRoundTrip(seconds: nat)
    ensures ParseClock(FormatClock(seconds)) == Some(seconds)
  {
    var r := FormatClock(seconds);
    assert seconds == (seconds / 60) * 60 + seconds % 60;
  }

  /** The avatar shows `phoneNumber[1] || '#'`: the character after the
      leading '+' when there is one. */
  function AvatarChar(phoneNumber: string): (c: char)
    ensures |phoneNumber| >= 2 ==> c == phoneNumber[1]
    ensures |phoneNumber| < 2 ==> c == '#'
  {
    if |phoneNumber| >= 2 then phoneNumber[1] else '#'
  }

  class CallDialog {
    var open: bool
    var mounted: bool
    /** An interval timer is live. */
    var ticking: bool
    var callDuration: nat
    var isMuted: bool

    /** A timer runs exactly while the mounted dialog is open, and an
        unmounted dialog shows no time. */
    ghost predicate Valid()
      reads this
    {
      && ticking == (mounted && open)
      && (!mounted ==> callDuration == 0)
    }

    /** Mounting: the effect for the first value of `open` runs. */
    constructor (open: bool)
      ensures Valid() && mounted && this.open == open
      ensures callDuration == 0 && !isMuted
    {
      this.open := open;
      mounted := true;
      ticking := open;
      callDuration := 0;
      isMuted := false;
    }

    /** One second elapses: a live timer adds exactly one. */
    method Tick()
      requires Valid()
      modifies this`callDuration
      ensures Valid()
      ensures callDuration == old(callDuration) + (if ticking then 1 else 0)
    {
      if ticking {
        callDuration := callDuration + 1;
      }
    }

    /** The `open` prop changes: the old effect's cleanup clears the timer and
        zeroes the counter, then the new effect starts a timer when open. */
    method SetOpen(o: bool)
      requires Valid() && mounted
      modifies this`open, this`ticking, this`callDuration
      ensures Valid() && open == o
      ensures o != old(open) ==> callDuration == 0
      ensures o == old(open) ==> callDuration == old(callDuration)
    {
      if o != open {
        ticking := false;
        callDuration := 0;
        open := o;
        ticking := o;
      }
    }

    /** Unmounting runs the cleanup: no timer, counter back to zero. */
    method Unmount()
      requires Valid()
      modifies this`mounted, this`ticking, this`callDuration
      ensures Valid() && !mounted && !ticking && callDuration == 0
    {
      mounted := false;
      ticking := false;
      callDuration := 0;
    }

    /** `handleMuteToggle`: flip the flag; the toast reads the value before the flip. */
    method ToggleMute() returns (effects: seq<Event>)
      requires Valid()
      modifies this`isMuted
      ensures Valid()
      ensures isMuted == !old(isMuted)
      ensures effects == [Say(Info, if old(isMuted) then UnmutedText else MutedText)]
    {
      effects := [Say(Info, if isMuted then UnmutedText else MutedText)];
      isMuted := !isMuted;
    }
  }
}
