/** `EjectTimeoutTracker`: the tracker that bounds a coin ejection. It has no
    debug-serial name or trace output. */
module EjectTimeoutTracking {
  import opened Words
  import opened Timeouts

  class EjectTimeoutTracker {
    var timeoutUs: uint32
    var startUs: uint32
    var check: bool

    /** Only `_check` is initialised; the other fields hold whatever the
        memory held, passed in here. */
    constructor (timeoutUs: uint32, startUs: uint32)
      ensures Fields() == Tracker(timeoutUs, startUs, false)
    {
      this.timeoutUs := timeoutUs;
      this.startUs := startUs;
      check := false;
    }

    function Fields(): Tracker
      reads this
    {
      Tracker(timeoutUs, startUs, check)
    }

    method Begin(timeoutUs: uint32)
      modifies this
      ensures Fields() == Begun(old(Fields()), timeoutUs)
    {
      this.timeoutUs := timeoutUs;
    }

    method Start(now: uint32)
      modifies this
      ensures Fields() == Started(old(Fields()), now)
    {
      startUs := now;
      check := true;
    }

    method Stop()
      modifies this
      ensures Fields() == Stopped(old(Fields()))
    {
      check := false;
    }

    method Trigger(now: uint32) returns (fired: bool)
      modifies this
      ensures (Fields(), fired) == Triggered(old(Fields()), now)
    {
      if check && Sub(now, startUs) > timeoutUs {
        check := false;
        return true;
      }
      return false;
    }
  }
}
