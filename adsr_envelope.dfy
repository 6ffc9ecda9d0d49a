/**
 * The ADSR envelope (`ADSREnvelope`) and the gain parameter it automates.
 * A Web Audio `AudioParam` is modelled as its current value and its timeline
 * of scheduled automation events; the envelope edits that timeline.
 */
module Envelope {
  import opened Lists

  /** One scheduled automation event: jump to `value` at `time`, or ramp
    * linearly to `value`, arriving at `time`. */
  datatype AutomationEvent =
    | SetValue(time: real, value: real)
    | LinearRamp(time: real, value: real)

  /** `cancelScheduledValues(t)` drops every event at or after `t`. */
  function CancelFrom(events: seq<AutomationEvent>, t: real): (r: seq<AutomationEvent>)
    ensures forall e :: e in r <==> e in events && e.time < t
    ensures IsSubsequence(r, events) && |r| <= |events|
  {
    if |events| == 0 then []
    else if events[0].time < t then [events[0]] + CancelFrom(events[1..], t)
    else CancelFrom(events[1..], t)
  }

  /** Event times never go backwards along the timeline. */
  predicate Ordered(events: seq<AutomationEvent>) {
    forall i, j :: 0 <= i < j < |events| ==> events[i].time <= events[j].time
  }

  lemma {:induction false} CancelKeepsOrder(events: seq<AutomationEvent>, t: real)
    requires Ordered(events)
    ensures Ordered(CancelFrom(events, t))
  {
    if |events| > 0 {
      assert Ordered(events[1..]) by {
        forall i, j | 0 <= i < j < |events[1..]|
          ensures events[1..][i].time <= events[1..][j].time
        {
          assert events[1..][i] == events[i + 1] && events[1..][j] == events[j + 1];
        }
      }
      CancelKeepsOrder(events[1..], t);
      var rest := CancelFrom(events[1..], t);
      if events[0].time < t {
        forall e | e in rest ensures events[0].time <= e.time {
          var k :| 0 <= k < |events[1..]| && events[1..][k] == e;
          assert events[k + 1] == e;
        }
      }
    }
  }

  /** Appending events that all start at or after `t` to a timeline cancelled
    * from `t` keeps it ordered. */
  lemma AppendAfterCancel(events: seq<AutomationEvent>, t: real, tail: seq<AutomationEvent>)
    requires Ordered(events) && Ordered(tail)
    requires forall k :: 0 <= k < |tail| ==> t <= tail[k].time
    ensures Ordered(CancelFrom(events, t) + tail)
  {
    var head := CancelFrom(events, t);
    CancelKeepsOrder(events, t);
    var all := head + tail;
    forall i, j | 0 <= i < j < |all| ensures all[i].time <= all[j].time {
      if j >= |head| && i < |head| {
        assert head[i] in head;
        assert all[j] == tail[j - |head|];
      } else if i >= |head| {
        assert all[i] == tail[i - |head|] && all[j] == tail[j - |head|];
      }
    }
  }

  /** The value the parameter computes at time `t`, reading `events` in
    * order from `held` (the value so far), reached at `since` when `started`:
    * an event at or before `t` sets the value it names; the first event after
    * `t`, if it is a ramp that has a preceding event, interpolates linearly
    * from that event to its own value. */
  function ValueFrom(events: seq<AutomationEvent>, held: real, since: real, started: bool, t: real): real
    requires started ==> since <= t
    decreases |events|
  {
    if |events| == 0 then held
    else if events[0].time <= t then ValueFrom(events[1..], events[0].value, events[0].time, true, t)
    else if events[0].LinearRamp? && started then
      held + (events[0].value - held) * ((t - since) / (events[0].time - since))
    else held
  }

  /** The value an `AudioParam` reports at time `t`, given its automation and
    * the value it had before any of it. */
  function ValueAt(events: seq<AutomationEvent>, initial: real, t: real): (r: real)
    ensures (forall k :: 0 <= k < |events| ==> t < events[k].time) ==> r == initial
  {
    ValueFrom(events, initial, 0.0, false, t)
  }

  /** Once every event is at or before `t`, the value is the last one named. */
  lemma {:induction false} SettledFrom(events: seq<AutomationEvent>, held: real, since: real, started: bool, t: real)
    requires started ==> since <= t
    requires |events| > 0 && forall k :: 0 <= k < |events| ==> events[k].time <= t
    ensures ValueFrom(events, held, since, started, t) == events[|events| - 1].value
  {
    if |events| > 1 {
      SettledFrom(events[1..], events[0].value, events[0].time, true, t);
    }
  }

  lemma SettledValue(events: seq<AutomationEvent>, initial: real, t: real)
    requires |events| > 0 && forall k :: 0 <= k < |events| ==> events[k].time <= t
    ensures ValueAt(events, initial, t) == events[|events| - 1].value
  {
    SettledFrom(events, initial, 0.0, false, t);
  }

  /** Events at or before `t` only matter through the last of them. */
  lemma {:induction false} PastPrefix(xs: seq<AutomationEvent>, ys: seq<AutomationEvent>,
                                      held: real, since: real, started: bool, t: real)
    requires started ==> since <= t
    requires |xs| > 0 && forall k :: 0 <= k < |xs| ==> xs[k].time <= t
    ensures ValueFrom(xs + ys, held, since, started, t) ==
            ValueFrom(ys, xs[|xs| - 1].value, xs[|xs| - 1].time, true, t)
  {
    assert (xs + ys)[0] == xs[0];
    assert (xs + ys)[1..] == xs[1..] + ys;
    if |xs| > 1 {
      PastPrefix(xs[1..], ys, xs[0].value, xs[0].time, true, t);
    }
  }

  lemma ProductNonNegative(p: real, q: real)
    requires 0.0 <= p && 0.0 <= q
    ensures 0.0 <= p * q
  {
  }

  /** The elapsed fraction of a ramp lies in 0..1. */
  lemma FractionWithinUnit(p: real, q: real)
    requires 0.0 <= p <= q && 0.0 < q
    ensures 0.0 <= p / q <= 1.0
  {
  }

  /** A value interpolated between two values lies between them. */
  lemma Between(a: real, b: real, x: real, lo: real, hi: real)
    requires 0.0 <= x <= 1.0 && lo <= a <= hi && lo <= b <= hi
    ensures lo <= a + (b - a) * x <= hi
  {
    assert a + (b - a) * x == a * (1.0 - x) + b * x;
    ProductNonNegative(a - lo, 1.0 - x);
    ProductNonNegative(hi - a, 1.0 - x);
    ProductNonNegative(b - lo, x);
    ProductNonNegative(hi - b, x);
  }

  /** The computed value never leaves the range spanned by the starting value
    * and the values the events name. */
  lemma {:induction false} ValueFromWithin(events: seq<AutomationEvent>, held: real, since: real, started: bool,
                                           t: real, lo: real, hi: real)
    requires started ==> since <= t
    requires lo <= held <= hi && forall k :: 0 <= k < |events| ==> lo <= events[k].value <= hi
    ensures lo <= ValueFrom(events, held, since, started, t) <= hi
    decreases |events|
  {
    if |events| > 0 {
      if events[0].time <= t {
        ValueFromWithin(events[1..], events[0].value, events[0].time, true, t, lo, hi);
      } else if events[0].LinearRamp? && started {
        var x := (t - since) / (events[0].time - since);
        FractionWithinUnit(t - since, events[0].time - since);
        Between(held, events[0].value, x, lo, hi);
      }
    }
  }

  lemma ValueWithin(events: seq<AutomationEvent>, initial: real, t: real, lo: real, hi: real)
    requires lo <= initial <= hi && forall k :: 0 <= k < |events| ==> lo <= events[k].value <= hi
    ensures lo <= ValueAt(events, initial, t) <= hi
  {
    ValueFromWithin(events, initial, 0.0, false, t, lo, hi);
  }

  /** An `AudioParam`: its intrinsic value (what it reports before any
    * automation takes effect) and its pending automation. */
  class GainParam {
    var value: real
    var events: seq<AutomationEvent>

    constructor(value: real)
      ensures this.value == value && events == []
    {
      this.value := value;
      events := [];
    }

    method CancelScheduledValues(t: real)
      modifies this
      ensures events == CancelFrom(old(events), t) && value == old(value)
    {
      events := CancelFrom(events, t);
    }

    method SetValueAtTime(v: real, t: real)
      modifies this
      ensures events == old(events) + [SetValue(t, v)] && value == old(value)
    {
      events := events + [SetValue(t, v)];
    }

    method LinearRampToValueAtTime(v: real, t: real)
      modifies this
      ensures events == old(events) + [LinearRamp(t, v)] && value == old(value)
    {
      events := events + [LinearRamp(t, v)];
    }
  }

  /** The gain a velocity drives the envelope to: velocity/127, unclamped. */
  function Peak(velocity: real): (p: real)
    ensures velocity == 127.0 ==> p == 1.0
    ensures 0.0 <= velocity <= 127.0 ==> 0.0 <= p <= 1.0
  {
    velocity / 127.0
  }

  /** What `apply` schedules after cancelling: silence now, the peak after
    * the attack, the sustain level after the decay. */
  function AttackEvents(now: real, velocity: real, attack: real, decay: real, sustain: real): (r: seq<AutomationEvent>)
    ensures |r| == 3 && r[0] == SetValue(now, 0.0)
    ensures r[1].LinearRamp? && r[1].time == now + attack && r[1].value == Peak(velocity)
    ensures r[2].LinearRamp? && r[2].time == now + attack + decay && r[2].value == sustain * r[1].value
    ensures attack > 0.0 && decay > 0.0 ==> r[0].time < r[1].time < r[2].time
  {
    var peak := Peak(velocity);
    [SetValue(now, 0.0), LinearRamp(now + attack, peak), LinearRamp(now + attack + decay, sustain * peak)]
  }

  /** What `releaseEnvelope` schedules after cancelling: hold the current
    * value now, then ramp to silence over the release time. */
  function ReleaseEvents(now: real, current: real, release: real): (r: seq<AutomationEvent>)
    ensures |r| == 2 && r[0] == SetValue(now, current)
    ensures r[1].LinearRamp? && r[1].time == now + release && r[1].value == 0.0
    ensures release >= 0.0 ==> r[0].time <= r[1].time
  {
    [SetValue(now, current), LinearRamp(now + release, 0.0)]
  }

  /** With non-negative phase lengths, applying or releasing the envelope keeps
    * an ordered timeline ordered. */
  lemma EnvelopeKeepsTimelineOrdered(events: seq<AutomationEvent>, now: real, velocity: real,
                                     attack: real, decay: real, sustain: real, release: real, current: real)
    requires Ordered(events) && attack >= 0.0 && decay >= 0.0 && release >= 0.0
    ensures Ordered(CancelFrom(events, now) + AttackEvents(now, velocity, attack, decay, sustain))
    ensures Ordered(CancelFrom(events, now) + ReleaseEvents(now, current, release))
  {
    AppendAfterCancel(events, now, AttackEvents(now, velocity, attack, decay, sustain));
    AppendAfterCancel(events, now, ReleaseEvents(now, current, release));
  }

  /** Whatever was scheduled before `now` has passed by any `t` from `now` on. */
  lemma CancelledPast(events: seq<AutomationEvent>, now: real, t: real)
    requires now <= t
    ensures forall k :: 0 <= k < |CancelFrom(events, now)| ==> CancelFrom(events, now)[k].time <= t
  {
  }

  /** During the attack of `apply` the level rises linearly from silence to
    * the peak. */
  lemma AttackRises(events: seq<AutomationEvent>, initial: real, now: real, velocity: real,
                    attack: real, decay: real, sustain: real, t: real)
    requires attack > 0.0 && now <= t < now + attack
    ensures ValueAt(CancelFrom(events, now) + AttackEvents(now, velocity, attack, decay, sustain), initial, t)
            == Peak(velocity) * ((t - now) / attack)
  {
    var kept := CancelFrom(events, now);
    var ev := AttackEvents(now, velocity, attack, decay, sustain);
    CancelledPast(events, now, t);
    assert kept + ev == (kept + [ev[0]]) + [ev[1], ev[2]];
    PastPrefix(kept + [ev[0]], [ev[1], ev[2]], initial, 0.0, false, t);
    assert ValueFrom([ev[1], ev[2]], 0.0, now, true, t) == 0.0 + (Peak(velocity) - 0.0) * ((t - now) / (now + attack - now));
  }

  /** During the decay of `apply` the level falls linearly from the peak to
    * sustain times peak. */
  lemma DecayFalls(events: seq<AutomationEvent>, initial: real, now: real, velocity: real,
                   attack: real, decay: real, sustain: real, t: real)
    requires attack >= 0.0 && decay > 0.0 && now + attack <= t < now + attack + decay
    ensures ValueAt(CancelFrom(events, now) + AttackEvents(now, velocity, attack, decay, sustain), initial, t)
            == Peak(velocity) + (sustain * Peak(velocity) - Peak(velocity)) * ((t - (now + attack)) / decay)
  {
    var kept := CancelFrom(events, now);
    var ev := AttackEvents(now, velocity, attack, decay, sustain);
    CancelledPast(events, now, t);
    assert kept + ev == (kept + [ev[0], ev[1]]) + [ev[2]];
    var prefix := kept + [ev[0], ev[1]];
    PastPrefix(prefix, [ev[2]], initial, 0.0, false, t);
    assert prefix[|prefix| - 1] == ev[1];
    assert now + attack + decay - (now + attack) == decay;
    assert ValueFrom([ev[2]], Peak(velocity), now + attack, true, t)
           == Peak(velocity) + (sustain * Peak(velocity) - Peak(velocity)) * ((t - (now + attack)) / decay);
  }

  /** Once attack and decay are over, `apply` holds sustain times peak. */
  lemma SustainHolds(events: seq<AutomationEvent>, initial: real, now: real, velocity: real,
                     attack: real, decay: real, sustain: real, t: real)
    requires attack >= 0.0 && decay >= 0.0 && now + attack + decay <= t
    ensures ValueAt(CancelFrom(events, now) + AttackEvents(now, velocity, attack, decay, sustain), initial, t)
            == sustain * Peak(velocity)
  {
    var tl := CancelFrom(events, now) + AttackEvents(now, velocity, attack, decay, sustain);
    CancelledPast(events, now, t);
    assert tl[|tl| - 1] == AttackEvents(now, velocity, attack, decay, sustain)[2];
    SettledValue(tl, initial, t);
  }

  /** During the release the level falls linearly from the level held to
    * silence; at `now` itself it is exactly the level held. */
  lemma ReleaseFalls(events: seq<AutomationEvent>, initial: real, now: real, current: real,
                     release: real, t: real)
    requires release > 0.0 && now <= t < now + release
    ensures ValueAt(CancelFrom(events, now) + ReleaseEvents(now, current, release), initial, t)
            == current + (0.0 - current) * ((t - now) / release)
    ensures t == now ==> ValueAt(CancelFrom(events, now) + ReleaseEvents(now, current, release), initial, t) == current
  {
    var kept := CancelFrom(events, now);
    var ev := ReleaseEvents(now, current, release);
    CancelledPast(events, now, t);
    var prefix := kept + [ev[0]];
    assert kept + ev == prefix + [ev[1]];
    PastPrefix(prefix, [ev[1]], initial, 0.0, false, t);
    assert prefix[|prefix| - 1] == ev[0];
    assert now + release - now == release;
    assert ValueFrom([ev[1]], current, now, true, t) == current + (0.0 - current) * ((t - now) / release);
  }

  /** Once the release is over the level is silence. */
  lemma ReleaseEnds(events: seq<AutomationEvent>, initial: real, now: real, current: real,
                    release: real, t: real)
    requires release >= 0.0 && now + release <= t
    ensures ValueAt(CancelFrom(events, now) + ReleaseEvents(now, current, release), initial, t) == 0.0
  {
    var tl := CancelFrom(events, now) + ReleaseEvents(now, current, release);
    CancelledPast(events, now, t);
    assert tl[|tl| - 1] == ReleaseEvents(now, current, release)[1];
    SettledValue(tl, initial, t);
  }

  /** The four phase parameters are fixed at construction. */
  class ADSREnvelope {
    const attack: real
    const decay: real
    const sustain: real
    const release: real

    constructor(attack: real, decay: real, sustain: real, release: real)
      ensures this.attack == attack && this.decay == decay
      ensures this.sustain == sustain && this.release == release
    {
      this.attack := attack;
      this.decay := decay;
      this.sustain := sustain;
      this.release := release;
    }

    /** `apply`; `now` is the audio clock reading. */
    method Apply(gain: GainParam, velocity: real, now: real)
      modifies gain
      ensures gain.events == CancelFrom(old(gain.events), now) + AttackEvents(now, velocity, attack, decay, sustain)
      ensures gain.value == old(gain.value)
    {
      var peak := Peak(velocity);
      gain.CancelScheduledValues(now);
      ghost var kept := gain.events;
      gain.SetValueAtTime(0.0, now);
      gain.LinearRampToValueAtTime(peak, now + attack);
      gain.LinearRampToValueAtTime(sustain * peak, now + attack + decay);
      assert gain.events == kept + [SetValue(now, 0.0), LinearRamp(now + attack, peak), LinearRamp(now + attack + decay, sustain * peak)];
      ghost var ev := AttackEvents(now, velocity, attack, decay, sustain);
      assert ev[0] == SetValue(now, 0.0);
      assert ev[1] == LinearRamp(now + attack, peak);
      assert ev[2] == LinearRamp(now + attack + decay, sustain * peak);
    }

    /** `releaseEnvelope`: holds whatever value the automation has reached
      * at `now`, then fades from it. */
    method ReleaseEnvelope(gain: GainParam, now: real)
      modifies gain
      ensures gain.events == CancelFrom(old(gain.events), now) +
                             ReleaseEvents(now, ValueAt(old(gain.events), old(gain.value), now), release)
      ensures gain.value == old(gain.value)
    {
      var level := ValueAt(gain.events, gain.value, now);
      gain.CancelScheduledValues(now);
      ghost var kept := gain.events;
      gain.SetValueAtTime(level, now);
      gain.LinearRampToValueAtTime(0.0, now + release);
      assert gain.events == kept + ReleaseEvents(now, level, release);
    }
  }
}
