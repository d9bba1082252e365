/** The behaviour shared by the firmware's two timeout trackers
    (`TimeoutTracker` and `EjectTimeoutTracker`): armed by `start`, disarmed
    by `stop`, and firing once when more than the timeout has elapsed since
    the start, with `uint32_t` time stamps. */
module Timeouts {
  import opened Words

  /** The fields `_timeout_us`, `_start_us` and `_check`. */
  datatype Tracker = Tracker(timeoutUs: uint32, startUs: uint32, armed: bool)

  /** `begin(timeout_us)` */
  function Begun(t: Tracker, timeoutUs: uint32): Tracker
  {
    t.(timeoutUs := timeoutUs)
  }

  /** `start(now)` */
  function Started(t: Tracker, now: uint32): Tracker
  {
    t.(startUs := now, armed := true)
  }

  /** `stop()` */
  function Stopped(t: Tracker): Tracker
  {
    t.(armed := false)
  }

  /** `trigger(now)`: the new tracker and whether it fired. */
  function Triggered(t: Tracker, now: uint32): (r: (Tracker, bool))
    ensures r.1 ==> t.armed && r.0 == t.(armed := false)
    ensures !r.1 ==> r.0 == t
  {
    if t.armed && Sub(now, t.startUs) > t.timeoutUs then (t.(armed := false), true) else (t, false)
  }

  /** A started tracker fires exactly when more than the timeout has passed
      since the start, even across a wrap of the microsecond clock. */
  lemma FiresAfterTimeout(t: Tracker, start: uint32, d: uint32)
    ensures Triggered(Started(t, start), Add(start, d)).1 <==> d > t.timeoutUs
  {
    ElapsedAcrossWrap(start, d);
  }

  /** A trigger that fires disarms the tracker, so no later trigger fires
      until the next start; a trigger that does not fire changes nothing. */
  lemma FiresOnce(t: Tracker, now: uint32, later: uint32)
    ensures var (t', fired) := Triggered(t, now);
            && (fired ==> !t'.armed && !Triggered(t', later).1 && t' == t.(armed := false))
            && (!fired ==> t' == t)
  {
  }

  /** A stopped tracker never fires. */
  lemma StoppedNeverFires(t: Tracker, now: uint32)
    ensures Triggered(Stopped(t), now) == (Stopped(t), false)
  {
  }

  /** `begin` changes only the timeout: an armed tracker stays armed from the same start. */
  lemma BeginKeepsArming(t: Tracker, timeoutUs: uint32)
    ensures Begun(t, timeoutUs).armed == t.armed && Begun(t, timeoutUs).startUs == t.startUs
  {
  }
}
