/** The firmware's pulse generator (`Pulse<HIGH_US, LOW_US>`): it drives an
    output HIGH for more than `HIGH_US` and LOW for more than `LOW_US` once
    per pending pulse, as a PAUSED/HIGH/LOW machine stepped by `update`.
    Counters and timestamps are `uint32_t`, so elapsed time is measured
    modulo 2^32. */
module PulseGen {
  import opened Wire
  import opened Words

  const STATE_PAUSED: u8 := 0
  const STATE_HIGH: u8 := 1
  const STATE_LOW: u8 := 2

  /** The three fields of a `Pulse`. */
  datatype PulseState = PulseState(startUs: uint32, pulses: uint32, state: u8)

  /** `pulse(n)`: `n` more pulses, modulo 2^32. */
  function Added(p: PulseState, n: uint32): (r: PulseState)
    ensures r.state == p.state && r.startUs == p.startUs
    ensures r.pulses == (p.pulses + n) % TWO32
  {
    p.(pulses := Add(p.pulses, n))
  }

  /** `update(now)`: the next state and whether the output changed level.
      Any state other than PAUSED and HIGH behaves as LOW. */
  function Updated(p: PulseState, highUs: uint32, lowUs: uint32, now: uint32): (PulseState, bool)
  {
    if p.state == STATE_PAUSED then
      if p.pulses != 0 then (PulseState(now, p.pulses, STATE_HIGH), true) else (p, false)
    else if p.state == STATE_HIGH then
      if Sub(now, p.startUs) > highUs then (PulseState(now, p.pulses, STATE_LOW), true) else (p, false)
    else
      if Sub(now, p.startUs) > lowUs then (p.(state := STATE_PAUSED, pulses := Sub(p.pulses, 1)), false) else (p, false)
  }

  /** `get()` on a state. */
  predicate IsHigh(p: PulseState)
  {
    p.state == STATE_HIGH
  }

  /** `update` returns true exactly when the output level `get()` changes. */
  lemma UpdateReportsLevelChange(p: PulseState, highUs: uint32, lowUs: uint32, now: uint32)
    ensures var (q, changed) := Updated(p, highUs, lowUs, now);
            changed <==> IsHigh(q) != IsHigh(p)
  {
  }

  /** Outside PAUSED a pulse is in progress, so at least one is pending. */
  predicate PendingWhileActive(p: PulseState)
  {
    p.state != STATE_PAUSED ==> p.pulses != 0
  }

  /** `update` keeps a pulse pending while the output is active, and the
      decrement on leaving LOW never wraps below zero. */
  lemma UpdateKeepsPending(p: PulseState, highUs: uint32, lowUs: uint32, now: uint32)
    requires PendingWhileActive(p)
    ensures var (q, _) := Updated(p, highUs, lowUs, now);
            && PendingWhileActive(q)
            && (q.pulses == p.pulses || q.pulses == p.pulses - 1)
  {
  }

  /** `pulse(n)` keeps the invariant as long as the count does not overflow. */
  lemma AddKeepsPending(p: PulseState, n: uint32)
    requires PendingWhileActive(p) && p.pulses + n < TWO32
    ensures PendingWhileActive(Added(p, n)) && Added(p, n).pulses == p.pulses + n
  {
  }

  /** Only an overflowing `pulse(n)` can leave an active output with no
      pulse pending: the invariant needs the no-overflow condition. */
  lemma AddOverflowBreaksPending()
    ensures var p := PulseState(0, 1, STATE_HIGH);
            PendingWhileActive(p) && !PendingWhileActive(Added(p, TWO32 - 1))
  {
  }

  /** One pulse, start to finish: from PAUSED with `k` pending, an update
      goes HIGH (reported), one more than `HIGH_US` later goes LOW
      (reported), and one more than `LOW_US` after that returns to PAUSED
      with `k - 1` pending (not reported). */
  lemma OnePulseCycle(k: uint32, start: uint32, highUs: uint32, lowUs: uint32, t0: uint32, dHigh: uint32, dLow: uint32)
    requires k != 0 && dHigh > highUs && dLow > lowUs
    ensures var (p1, e1) := Updated(PulseState(start, k, STATE_PAUSED), highUs, lowUs, t0);
            var (p2, e2) := Updated(p1, highUs, lowUs, Add(t0, dHigh));
            var (p3, e3) := Updated(p2, highUs, lowUs, Add(Add(t0, dHigh), dLow));
            && p1.state == STATE_HIGH && e1
            && p2.state == STATE_LOW && e2
            && p3.state == STATE_PAUSED && !e3
            && p3.pulses == k - 1
  {
    ElapsedAcrossWrap(t0, dHigh);
    ElapsedAcrossWrap(Add(t0, dHigh), dLow);
  }

  class Pulse {
    const highUs: uint32
    const lowUs: uint32
    var startUs: uint32
    var pulses: uint32
    var state: u8

    /** The constructor clears the count only; the state and start time are
        whatever the memory held, passed in here. */
    constructor (highUs: uint32, lowUs: uint32, initialState: u8, initialStart: uint32)
      ensures this.highUs == highUs && this.lowUs == lowUs
      ensures pulses == 0 && state == initialState && startUs == initialStart
    {
      this.highUs := highUs;
      this.lowUs := lowUs;
      startUs := initialStart;
      pulses := 0;
      state := initialState;
    }

    function Fields(): PulseState
      reads this
    {
      PulseState(startUs, pulses, state)
    }

    method AddPulses(n: uint32)
      modifies this
      ensures Fields() == Added(old(Fields()), n)
    {
      pulses := Add(pulses, n);
    }

    method Update(now: uint32) returns (changed: bool)
      modifies this
      ensures (Fields(), changed) == Updated(old(Fields()), highUs, lowUs, now)
      ensures changed <==> Get() != old(Get())
    {
      if state == STATE_PAUSED {
        if pulses != 0 {
          startUs := now;
          state := STATE_HIGH;
          return true;
        }
      } else {
        if state == STATE_HIGH {
          if Sub(now, startUs) > highUs {
            state := STATE_LOW;
            startUs := now;
            return true;
          }
        } else {
          if Sub(now, startUs) > lowUs {
            state := STATE_PAUSED;
            pulses := Sub(pulses, 1);
          }
        }
      }
      return false;
    }

    /** The output level: high exactly in the HIGH state. */
    function Get(): bool
      reads this
    {
      IsHigh(Fields())
    }
  }
}
