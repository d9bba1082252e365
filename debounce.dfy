/** The firmware's input debouncer (`Debounce<ACTIVE_LEVEL,
    DEBOUNCE_TIMEOUT_US, ...>`): an `int32_t` energy integrates the time
    between feeds, up or down depending on the sampled level, and is clamped
    to [-T, T]; reaching a clamp switches the debounced output and fires the
    rise or fall handler, here returned as an `Edge`.

    The update `_energy += _feed_micros - now` adds an unsigned difference
    that is the elapsed time negated modulo 2^32: the energy goes DOWN by
    the elapsed time while the input is at the active level, and up while
    it is not. */
module Debouncing {
  import opened Words

  /** The handler a feed fires, if any. */
  datatype Edge = NoEdge | Rise | Fall

  /** The three fields of a `Debounce`. */
  datatype Debouncer = Debouncer(output: bool, energy: int, feedMicros: uint32)

  /** The energy after `_energy += _feed_micros - now` (input at the active
      level) or `_energy -= _feed_micros - now` (otherwise), stored back into
      the `int32_t`. */
  function Integrated(energy: int, feedMicros: uint32, now: uint32, atActive: bool): (r: int)
    ensures IsInt32(r)
    ensures r == ToInt32(if atActive then energy - Sub(now, feedMicros) else energy + Sub(now, feedMicros))
  {
    var delta := Sub(feedMicros, now);
    NegatedElapsed(energy, feedMicros, now);
    if atActive then ToInt32(energy + delta) else ToInt32(energy - delta)
  }

  /** Adding `_feed_micros - now` is subtracting the elapsed time `now -
      _feed_micros`, once stored into the `int32_t`, and the other way round. */
  lemma NegatedElapsed(energy: int, feedMicros: uint32, now: uint32)
    ensures ToInt32(energy + Sub(feedMicros, now)) == ToInt32(energy - Sub(now, feedMicros))
    ensures ToInt32(energy - Sub(feedMicros, now)) == ToInt32(energy + Sub(now, feedMicros))
  {
    var e: int := Sub(now, feedMicros);
    var delta: int := Sub(feedMicros, now);
    SubAntisymmetric(feedMicros, now);
    if delta + e == TWO32 {
      ToInt32Shift(energy - e);
      assert energy + delta == (energy - e) + TWO32;
      ToInt32Shift(energy - delta);
      assert energy + e == (energy - delta) + TWO32;
    }
  }

  /** `feed(state, active_level, now)` with `DEBOUNCE_TIMEOUT_US` = `timeout`. */
  function Fed(d: Debouncer, timeout: int, state: bool, activeLevel: bool, now: uint32): (r: (Debouncer, Edge))
    requires 0 <= timeout < TWO31
    ensures -timeout <= r.0.energy <= timeout
    ensures r.0.feedMicros == now
    ensures r.1 == Rise <==> !d.output && r.0.output
    ensures r.1 == Fall <==> d.output && !r.0.output
    ensures var raw := Integrated(d.energy, d.feedMicros, now, state == activeLevel);
            && (raw > timeout ==> r.0.output && r.0.energy == timeout)
            && (raw < -timeout ==> !r.0.output && r.0.energy == -timeout)
            && (-timeout <= raw <= timeout ==> r.1 == NoEdge && r.0 == Debouncer(d.output, raw, now))
  {
    var raw := Integrated(d.energy, d.feedMicros, now, state == activeLevel);
    if raw > timeout then
      (Debouncer(true, timeout, now), if d.output != true then Rise else NoEdge)
    else if raw < -timeout then
      (Debouncer(false, -timeout, now), if d.output != false then Fall else NoEdge)
    else
      (Debouncer(d.output, raw, now), NoEdge)
  }

  /** Between clamps, and with feeds less than 2^31 - T apart, the energy
      moves by exactly the elapsed time: down at the active level, up
      otherwise. */
  lemma IntegratedWithoutWrap(energy: int, timeout: int, feedMicros: uint32, now: uint32, atActive: bool)
    requires 0 <= timeout < TWO31 && -timeout <= energy <= timeout
    requires Sub(now, feedMicros) < TWO31 - timeout
    ensures Integrated(energy, feedMicros, now, atActive)
            == if atActive then energy - Sub(now, feedMicros) else energy + Sub(now, feedMicros)
  {
  }

  /** Holding the input at the active level for more than 2T drives a high
      output low, whatever the energy was. */
  lemma HeldActiveLevelFalls(d: Debouncer, timeout: int, activeLevel: bool, now: uint32)
    requires 0 <= timeout < TWO31 && -timeout <= d.energy <= timeout && d.output
    requires 2 * timeout < Sub(now, d.feedMicros) < TWO31 - timeout
    ensures Fed(d, timeout, activeLevel, activeLevel, now) == (Debouncer(false, -timeout, now), Fall)
  {
    IntegratedWithoutWrap(d.energy, timeout, d.feedMicros, now, true);
  }

  /** Holding the input away from the active level for more than 2T drives a
      low output high. */
  lemma HeldInactiveLevelRises(d: Debouncer, timeout: int, activeLevel: bool, now: uint32)
    requires 0 <= timeout < TWO31 && -timeout <= d.energy <= timeout && !d.output
    requires 2 * timeout < Sub(now, d.feedMicros) < TWO31 - timeout
    ensures Fed(d, timeout, !activeLevel, activeLevel, now) == (Debouncer(true, timeout, now), Rise)
  {
    IntegratedWithoutWrap(d.energy, timeout, d.feedMicros, now, false);
  }

  class Debounce {
    const activeLevel: bool
    /** `DEBOUNCE_TIMEOUT_US` */
    const timeout: int
    var oldOutput: bool
    var energy: int
    var feedMicros: uint32

    /** The timeout is a non-negative `int32_t`, and the energy stays within it. */
    predicate Valid()
      reads this
    {
      0 <= timeout < TWO31 && -timeout <= energy <= timeout
    }

    function Fields(): Debouncer
      reads this
    {
      Debouncer(oldOutput, energy, feedMicros)
    }

    constructor (activeLevel: bool, timeout: int)
      requires 0 <= timeout < TWO31
      ensures Valid() && this.activeLevel == activeLevel && this.timeout == timeout
      ensures Fields() == Debouncer(false, 0, 0)
    {
      this.activeLevel := activeLevel;
      this.timeout := timeout;
      oldOutput := false;
      energy := 0;
      feedMicros := 0;
    }

    /** `begin`: sets the output and the time stamp, keeps the energy. */
    method Begin(initialState: bool, now: uint32)
      requires Valid()
      modifies this
      ensures Valid() && Fields() == Debouncer(initialState, old(energy), now)
    {
      oldOutput := initialState;
      feedMicros := now;
    }

    /** The two-level `feed`. */
    method FeedAt(state: bool, level: bool, now: uint32) returns (edge: Edge)
      requires Valid()
      modifies this
      ensures Valid() && (Fields(), edge) == Fed(old(Fields()), timeout, state, level, now)
    {
      if state == level {
        energy := ToInt32(energy + Sub(feedMicros, now));
      } else {
        energy := ToInt32(energy - Sub(feedMicros, now));
      }
      feedMicros := now;

      edge := NoEdge;
      if energy > timeout {
        energy := timeout;
        if oldOutput != true {
          oldOutput := true;
          edge := Rise;
        }
      } else if energy < -timeout {
        energy := -timeout;
        if oldOutput != false {
          oldOutput := false;
          edge := Fall;
        }
      }
    }

    /** The one-level `feed`: the template's `ACTIVE_LEVEL`. */
    method Feed(state: bool, now: uint32) returns (edge: Edge)
      requires Valid()
      modifies this
      ensures Valid() && (Fields(), edge) == Fed(old(Fields()), timeout, state, activeLevel, now)
    {
      edge := FeedAt(state, activeLevel, now);
    }
  }
}
