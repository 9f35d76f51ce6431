/**
 * Session tracking: the session starts on the first click, its length is
 * counted in whole minutes, and two one-shot banners fire at the 30- and
 * 40-minute marks (src/App.js:29, 42-45, 53-78, 86).
 */
module Session {
  import opened Wrappers

  const MS_PER_MINUTE: nat := 60000
  const YELLOW_MARK: int := 30
  const RED_MARK: int := 40
  /** The red banner is cleared by a timer after this many milliseconds. */
  const RED_BANNER_MS: nat := 5000
  const YELLOW_MESSAGE: string := "\U{23F0} 30 minutes reached!"
  const RED_MESSAGE: string := "\U{23F0} 40 minutes reached!"

  /**
   * `sessionMinutes`: `Math.floor((now - start) / 60000)`, or 0 before the
   * session starts. Dafny's division by a positive divisor is floor division,
   * so a clock reading before the start gives a negative count, as in the source.
   */
  function Minutes(start: Option<nat>, now: nat): (m: int)
    ensures start.None? ==> m == 0
    ensures start.Some? ==> m * MS_PER_MINUTE <= now - start.value < (m + 1) * MS_PER_MINUTE
  {
    match start
    case None => 0
    case Some(s) => (now - s) / MS_PER_MINUTE
  }

  /** The alert state: the two one-shot flags and the banner text and colour. */
  datatype Alerts = Alerts(notified30: bool, notified40: bool, message: string, color: string)

  const NO_ALERTS: Alerts := Alerts(false, false, "", "")

  /** One run of the threshold effect at time `now`. */
  function Step(a: Alerts, start: Option<nat>, now: nat): Alerts
  {
    if start.None? then a
    else
      var m := Minutes(start, now);
      var a1 := if m == YELLOW_MARK && !a.notified30
        then a.(message := YELLOW_MESSAGE, color := "yellow", notified30 := true) else a;
      if m == RED_MARK && !a1.notified40
        then a1.(message := RED_MESSAGE, color := "red", notified40 := true) else a1
  }

  /** The yellow banner fires on this step exactly when the session is at minute 30 and it has not fired before. */
  lemma YellowFiresIff(a: Alerts, start: Option<nat>, now: nat)
    ensures var b := Step(a, start, now);
      (!a.notified30 && b.notified30) <==> (start.Some? && Minutes(start, now) == YELLOW_MARK && !a.notified30)
    ensures var b := Step(a, start, now);
      !a.notified30 && b.notified30 ==> b.message == YELLOW_MESSAGE && b.color == "yellow"
  {
  }

  /** The red banner fires on this step exactly when the session is at minute 40 and it has not fired before. */
  lemma RedFiresIff(a: Alerts, start: Option<nat>, now: nat)
    ensures var b := Step(a, start, now);
      (!a.notified40 && b.notified40) <==> (start.Some? && Minutes(start, now) == RED_MARK && !a.notified40)
    ensures var b := Step(a, start, now);
      !a.notified40 && b.notified40 ==> b.message == RED_MESSAGE && b.color == "red"
  {
  }

  /** Flags are never cleared. */
  lemma StepKeepsFlags(a: Alerts, start: Option<nat>, now: nat)
    ensures a.notified30 ==> Step(a, start, now).notified30
    ensures a.notified40 ==> Step(a, start, now).notified40
  {
  }

  /** How many of the steps at times `nows` fire the yellow banner. */
  function YellowCount(a: Alerts, start: Option<nat>, nows: seq<nat>): nat
    decreases |nows|
  {
    if nows == [] then 0
    else
      var b := Step(a, start, nows[0]);
      (if !a.notified30 && b.notified30 then 1 else 0) + YellowCount(b, start, nows[1..])
  }

  /** How many of the steps at times `nows` fire the red banner. */
  function RedCount(a: Alerts, start: Option<nat>, nows: seq<nat>): nat
    decreases |nows|
  {
    if nows == [] then 0
    else
      var b := Step(a, start, nows[0]);
      (if !a.notified40 && b.notified40 then 1 else 0) + RedCount(b, start, nows[1..])
  }

  /** Over any sequence of ticks the yellow banner fires at most once, and never again once fired. */
  lemma {:induction false} YellowAtMostOnce(a: Alerts, start: Option<nat>, nows: seq<nat>)
    ensures YellowCount(a, start, nows) <= if a.notified30 then 0 else 1
    decreases |nows|
  {
    if nows != [] {
      var b := Step(a, start, nows[0]);
      StepKeepsFlags(a, start, nows[0]);
      YellowAtMostOnce(b, start, nows[1..]);
    }
  }

  /** Over any sequence of ticks the red banner fires at most once, and never again once fired. */
  lemma {:induction false} RedAtMostOnce(a: Alerts, start: Option<nat>, nows: seq<nat>)
    ensures RedCount(a, start, nows) <= if a.notified40 then 0 else 1
    decreases |nows|
  {
    if nows != [] {
      var b := Step(a, start, nows[0]);
      StepKeepsFlags(a, start, nows[0]);
      RedAtMostOnce(b, start, nows[1..]);
    }
  }

  class SessionTracker {
    var start: Option<nat>
    var notified30: bool
    var notified40: bool
    var bannerMessage: string
    var bannerColor: string

    function State(): Alerts
      reads this
    {
      Alerts(notified30, notified40, bannerMessage, bannerColor)
    }

    constructor ()
      ensures start == None && State() == NO_ALERTS
    {
      start := None;
      notified30, notified40 := false, false;
      bannerMessage, bannerColor := "", "";
    }

    /** `if (!sessionStart) setSessionStart(now)`: the start is set once and never replaced. */
    method EnsureStarted(now: nat)
      modifies this
      ensures start == if old(start).None? then Some(now) else old(start)
      ensures State() == old(State())
    {
      if start.None? {
        start := Some(now);
      }
    }

    /**
     * The threshold effect at time `now`. Returns the delay after which the
     * red banner is to be cleared when it has just been raised.
     */
    method Tick(now: nat) returns (clearAfter: Option<nat>)
      modifies this
      ensures start == old(start)
      ensures State() == Step(old(State()), start, now)
      ensures clearAfter == if !old(notified40) && notified40 then Some(RED_BANNER_MS) else None
    {
      clearAfter := None;
      if start.None? {
        return;
      }
      var minutes := Minutes(start, now);
      if minutes == YELLOW_MARK && !notified30 {
        bannerMessage := YELLOW_MESSAGE;
        bannerColor := "yellow";
        notified30 := true;
      }
      if minutes == RED_MARK && !notified40 {
        bannerMessage := RED_MESSAGE;
        bannerColor := "red";
        notified40 := true;
        clearAfter := Some(RED_BANNER_MS);
      }
    }
  }
}
