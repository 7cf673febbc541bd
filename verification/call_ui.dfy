/**
 * The call overlay's rules (components/GlobalCallUI.tsx): who sees the call,
 * which controls each side gets, the `m:ss` timer text and the elapsed seconds
 * the one-second interval writes into `duration`. Rendering is left out.
 */
module CallView {
  import opened Common
  import opened Domain
  import opened Calls
  import Text

  /** JavaScript's `a % b`: the remainder carries the sign of the dividend. */
  function JsRem(a: int, b: int): (r: int)
    requires b > 0
    ensures a >= 0 ==> r == a % b
    ensures -b < r < b
  {
    if a >= 0 then a % b else -((-a) % b)
  }

  /**
   * `formatTime`: `Math.floor(secs / 60)`, a colon, and `secs % 60` padded to two
   * characters (Dafny's `/` by a positive number already rounds down).
   */
  function FormatTime(secs: int): string {
    Text.IntToString(secs / 60) + ":" + Text.PadStart2(Text.IntToString(JsRem(secs, 60)))
  }

  function MinutesField(r: string): string
    requires |r| >= 3
  {
    r[..|r| - 3]
  }

  function SecondsField(r: string): string
    requires |r| >= 2
  {
    r[|r| - 2..]
  }

  predicate AllDigits(s: string) {
    forall k :: 0 <= k < |s| ==> Text.IsDigit(s[k])
  }

  /**
   * For a non-negative duration the text reads back: digits, a colon, exactly two
   * digits of seconds below 60, and minutes * 60 + seconds is the duration.
   */
  lemma FormatTimeReadsBack(secs: nat)
    ensures var r := FormatTime(secs);
            && |r| >= 4 && r[|r| - 3] == ':'
            && AllDigits(MinutesField(r)) && AllDigits(SecondsField(r))
            && Text.DecimalValue(SecondsField(r)) < 60
            && Text.DecimalValue(MinutesField(r)) * 60 + Text.DecimalValue(SecondsField(r)) == secs
  {
    var mins := Text.NatToString(secs / 60);
    var padded := Text.PadStart2(Text.NatToString(secs % 60));
    Text.DecimalRoundTrip(secs / 60);
    PaddedSeconds(secs % 60);
    var r := FormatTime(secs);
    assert r == mins + ":" + padded;
    assert MinutesField(r) == mins;
    assert SecondsField(r) == padded;
  }

  /** The seconds field: two digits whose value is the seconds. */
  lemma PaddedSeconds(s: nat)
    requires s < 60
    ensures var p := Text.PadStart2(Text.NatToString(s));
            |p| == 2 && AllDigits(p) && Text.DecimalValue(p) == s
  {
    var digits := Text.NatToString(s);
    var p := Text.PadStart2(digits);
    Text.DecimalRoundTrip(s);
    if |digits| == 1 {
      assert p == "0" + digits;
      assert p[..1] == "0";
      assert Text.DecimalValue(p[..1]) == 0;
    } else {
      assert |digits| == 2 by {
        assert s >= 10;
        assert Text.NatToString(s / 10) == digits[..|digits| - 1];
      }
    }
  }

  function IsCaller(user: User, s: CallState): bool {
    s.caller.Some? && s.caller.value.id == user.id
  }

  function CanAnswer(user: User, s: CallState): bool {
    s.recipientRole == Some(user.role)
  }

  /** The overlay shows for a signed-in user, on an active call, to the caller or the called role. */
  function ShowsCallUI(user: Option<User>, s: CallState): bool {
    user.Some? && s.isActive && (IsCaller(user.value, s) || CanAnswer(user.value, s))
  }

  /** Accept/Decline: a non-caller, while the call rings. */
  function ShowsAnswerControls(user: User, s: CallState): bool {
    !IsCaller(user, s) && s.status == Ringing
  }

  /** Hang-up row: the caller or a connected call, and not once it has ended. */
  function ShowsHangUpControls(user: User, s: CallState): bool {
    (IsCaller(user, s) || s.status == Connected) && s.status != Ended
  }

  /** The caller always sees the call they just placed; nobody sees an idle call. */
  lemma CallerSeesOwnCall(s: CallState, user: User, recipient: Role)
    ensures ShowsCallUI(Some(user), Initiate(s, Some(user), recipient))
    ensures !ShowsCallUI(Some(user), IdleCall)
  {
  }

  /**
   * On any reachable call, someone other than the caller sees the overlay only when
   * the call is for their role, and an idle call is shown to nobody.
   */
  lemma OnlyCallerOrRecipientSees(trace: seq<CallEvent>, user: User)
    ensures var s := RunCall(IdleCall, trace);
            && (ShowsCallUI(Some(user), s) && !IsCaller(user, s) ==> s.recipientRole == Some(user.role))
            && (s.status == Idle ==> !ShowsCallUI(Some(user), s))
  {
    RunKeepsReachable(trace);
  }

  /**
   * The two control groups never show together, the caller never gets Accept/Decline,
   * and an ended call shows no controls at all.
   */
  lemma ControlsExclusive(user: User, s: CallState)
    ensures !(ShowsAnswerControls(user, s) && ShowsHangUpControls(user, s))
    ensures IsCaller(user, s) ==> !ShowsAnswerControls(user, s)
    ensures s.status == Ended ==> !ShowsAnswerControls(user, s) && !ShowsHangUpControls(user, s)
  {
  }

  /** `Math.floor((now - start) / 1000)`: whole seconds elapsed. */
  function Duration(now: int, start: int): (d: int)
    ensures 1000 * d <= now - start < 1000 * (d + 1)
  {
    (now - start) / 1000
  }

  /** The interval runs only while the call is CONNECTED with a (truthy, non-zero) start time. */
  predicate TimerRuns(s: CallState) {
    s.status == Connected && s.startTime.Some? && s.startTime.value != 0
  }

  class CallTimer {
    var duration: int

    constructor ()
      ensures duration == 0
    {
      duration := 0;
    }

    /** One interval callback at clock reading `now`. */
    method Tick(now: int, s: CallState)
      modifies this
      ensures TimerRuns(s) ==> duration == Duration(now, s.startTime.value)
      ensures !TimerRuns(s) ==> duration == old(duration)
    {
      if s.status == Connected && s.startTime.Some? && s.startTime.value != 0 {
        duration := (now - s.startTime.value) / 1000;
      }
    }
  }
}
