/**
 * The quadrature decoder of `encoder_callback` (osd.c:53-102).
 *
 * The handler runs on every falling edge of the three encoder lines. It
 * receives the line that fired and samples the two rotation lines as a
 * 2-bit level: rotation-A in bit 0, rotation-B in bit 1 (osd.c:55-56). Two
 * private flags remember a half-seen detent: `clockwise_fall` is armed by
 * an A edge that leaves level 0b10, `counterclockwise_fall` by a B edge that
 * leaves 0b01; an edge of the other line that reaches 0b00 confirms the
 * armed direction, clears both flags and moves the shared counter `value`.
 * The push-button line resets the counter.
 *
 * `Step` is the handler as a function on the decoder's state; the class
 * `Decoder` is the handler as the source writes it, updating its fields in
 * place, and is proved to follow `Step`.
 */
module Encoder {
  import opened Bytes

  /** GPIO numbers of the encoder lines (osd.c:45-47). */
  const EncA: nat := 6
  const EncB: nat := 7
  const EncSw: nat := 8

  /** The combined level of the two rotation lines: bit 0 is rotation-A,
      bit 1 is rotation-B. */
  type Level = l: nat | l < 4

  /** What the handler reports (its `printf` lines, osd.c:74, 90, 100). */
  datatype Event = Clockwise | CounterClockwise | Reset

  /** The two phase flags and the counter they drive. */
  datatype DecoderState = DecoderState(cw: bool, ccw: bool, value: UInt8)

  datatype StepResult = StepResult(next: DecoderState, event: Option<Event>)

  /** The effect of one reported event on the counter. */
  function ApplyEvent(v: UInt8, e: Event): UInt8 {
    match e
    case Clockwise => Inc(v)
    case CounterClockwise => Dec(v)
    case Reset => 0
  }

  function EventList(e: Option<Event>): seq<Event> {
    if e.Some? then [e.value] else []
  }

  /** The counter after a log of events, starting from `v`. */
  function Replay(v: UInt8, log: seq<Event>): UInt8 {
    if log == [] then v else ApplyEvent(Replay(v, log[..|log| - 1]), log[|log| - 1])
  }

  /** One call of the handler for an edge on `pin` with the sampled `level`.
      Its contract classifies the call: which event it reports, exactly when,
      what the counter becomes and what happens to the flags. */
  function Step(s: DecoderState, pin: nat, level: Level): (r: StepResult)
    ensures r.event == Some(Clockwise) <==> pin == EncB && s.cw && level == 0
    ensures r.event == Some(CounterClockwise) <==> pin == EncA && s.ccw && level == 0
    ensures r.event == Some(Reset) <==> pin == EncSw
    ensures r.next.value == Replay(s.value, EventList(r.event))
    ensures r.event == Some(Clockwise) || r.event == Some(CounterClockwise) ==>
              !r.next.cw && !r.next.ccw
    ensures r.event == Some(Reset) ==> r.next.cw == s.cw && r.next.ccw == s.ccw
    ensures r.event == None ==>
              && r.next.cw == (s.cw || (pin == EncA && level == 2))
              && r.next.ccw == (s.ccw || (pin == EncB && level == 1))
  {
    if pin == EncA then
      var cw := if !s.cw && level == 2 then true else s.cw;
      if s.ccw && level == 0 then
        StepResult(DecoderState(false, false, Dec(s.value)), Some(CounterClockwise))
      else
        StepResult(DecoderState(cw, s.ccw, s.value), None)
    else if pin == EncB then
      var ccw := if !s.ccw && level == 1 then true else s.ccw;
      if s.cw && level == 0 then
        StepResult(DecoderState(false, false, Inc(s.value)), Some(Clockwise))
      else
        StepResult(DecoderState(s.cw, ccw, s.value), None)
    else if pin == EncSw then
      StepResult(s.(value := 0), Some(Reset))
    else
      StepResult(s, None)
  }

  /** An edge as delivered to the handler. */
  datatype Edge = Edge(pin: nat, level: Level)

  datatype RunResult = RunResult(final: DecoderState, events: seq<Event>)

  /** The handler applied to a sequence of edges, one call after another. */
  function Run(s: DecoderState, edges: seq<Edge>): RunResult
    decreases |edges|
  {
    if edges == [] then RunResult(s, [])
    else
      var r := Step(s, edges[0].pin, edges[0].level);
      var rest := Run(r.next, edges[1..]);
      RunResult(rest.final, EventList(r.event) + rest.events)
  }

  function Repeat(e: Edge, k: nat): (es: seq<Edge>)
    ensures |es| == k && forall i :: 0 <= i < k ==> es[i] == e
  {
    if k == 0 then [] else [e] + Repeat(e, k - 1)
  }

  // ---- single edges (osd.c:61-101) ----

  /** An A edge at 0b10 arms clockwise and touches nothing else (osd.c:63-64). */
  lemma ArmClockwise(s: DecoderState)
    requires !s.cw
    ensures Step(s, EncA, 2) == StepResult(s.(cw := true), None)
  {
  }

  /** A B edge at 0b01 arms counter-clockwise and touches nothing else (osd.c:79-80). */
  lemma ArmCounterClockwise(s: DecoderState)
    requires !s.ccw
    ensures Step(s, EncB, 1) == StepResult(s.(ccw := true), None)
  {
  }

  /** A B edge at 0b00 with clockwise armed confirms a clockwise detent:
      both flags clear and the counter goes up by one, 255 wrapping to 0
      (osd.c:82-89). */
  lemma ConfirmClockwise(s: DecoderState)
    requires s.cw
    ensures Step(s, EncB, 0) == StepResult(DecoderState(false, false, Inc(s.value)), Some(Clockwise))
    ensures s.value == 255 ==> Step(s, EncB, 0).next.value == 0
  {
  }

  /** An A edge at 0b00 with counter-clockwise armed confirms a
      counter-clockwise detent: both flags clear and the counter goes down by
      one, 0 wrapping to 255 (osd.c:66-73). */
  lemma ConfirmCounterClockwise(s: DecoderState)
    requires s.ccw
    ensures Step(s, EncA, 0) == StepResult(DecoderState(false, false, Dec(s.value)), Some(CounterClockwise))
    ensures s.value == 0 ==> Step(s, EncA, 0).next.value == 255
  {
  }

  /** The button sets the counter to 0 from any state and leaves both phase
      flags as they were (osd.c:93-100). */
  lemma ButtonResets(s: DecoderState, level: Level)
    ensures Step(s, EncSw, level) == StepResult(DecoderState(s.cw, s.ccw, 0), Some(Reset))
  {
  }

  /** The if/else-if chain has no final else: an edge on any other line
      changes nothing (osd.c:61-101). */
  lemma OtherPinIgnored(s: DecoderState, pin: nat, level: Level)
    requires pin != EncA && pin != EncB && pin != EncSw
    ensures Step(s, pin, level) == StepResult(s, None)
  {
  }

  /** Repeating a confirming edge right after the confirmation does nothing
      more: the confirmation cleared the flag it needs (osd.c:69-70, 85-86). */
  lemma ConfirmationNotRepeated(s: DecoderState)
    ensures s.cw ==>
      var t := Step(s, EncB, 0).next;
      Step(t, EncB, 0) == StepResult(t, None)
    ensures s.ccw ==>
      var t := Step(s, EncA, 0).next;
      Step(t, EncA, 0) == StepResult(t, None)
  {
  }

  // ---- sequences of edges ----

  lemma RunPair(s: DecoderState, e1: Edge, e2: Edge)
    ensures
      var r1 := Step(s, e1.pin, e1.level);
      var r2 := Step(r1.next, e2.pin, e2.level);
      Run(s, [e1, e2]) == RunResult(r2.next, EventList(r1.event) + EventList(r2.event))
  {
    var r1 := Step(s, e1.pin, e1.level);
    var r2 := Step(r1.next, e2.pin, e2.level);
    assert [e1, e2][1..] == [e2];
    assert Run(r1.next, [e2]) == RunResult(r2.next, EventList(r2.event) + []);
    assert EventList(r2.event) + [] == EventList(r2.event);
  }

  /** The clockwise detent, falling A at 0b10 then falling B at 0b00, from the
      idle state: the counter goes up by exactly one and both flags end clear
      (osd.c:61-91). */
  lemma ClockwiseDetent(v: UInt8)
    ensures Run(DecoderState(false, false, v), [Edge(EncA, 2), Edge(EncB, 0)])
         == RunResult(DecoderState(false, false, Inc(v)), [Clockwise])
  {
    RunPair(DecoderState(false, false, v), Edge(EncA, 2), Edge(EncB, 0));
  }

  /** The counter-clockwise detent, falling B at 0b01 then falling A at 0b00:
      the counter goes down by exactly one and both flags end clear. */
  lemma CounterClockwiseDetent(v: UInt8)
    ensures Run(DecoderState(false, false, v), [Edge(EncB, 1), Edge(EncA, 0)])
         == RunResult(DecoderState(false, false, Dec(v)), [CounterClockwise])
  {
    RunPair(DecoderState(false, false, v), Edge(EncB, 1), Edge(EncA, 0));
  }

  /** A clockwise detent at 255 gives 0, a counter-clockwise one at 0 gives 255. */
  lemma DetentsWrap()
    ensures Run(DecoderState(false, false, 255), [Edge(EncA, 2), Edge(EncB, 0)]).final.value == 0
    ensures Run(DecoderState(false, false, 0), [Edge(EncB, 1), Edge(EncA, 0)]).final.value == 255
  {
    ClockwiseDetent(255);
    CounterClockwiseDetent(0);
  }

  /** Nothing keeps both flags from being armed at once: an A edge at 0b10
      followed by a B edge at 0b01 arms both (osd.c:63-64, 79-80). */
  lemma BothArmedReachable(v: UInt8)
    ensures Run(DecoderState(false, false, v), [Edge(EncA, 2), Edge(EncB, 1)])
         == RunResult(DecoderState(true, true, v), [])
  {
    RunPair(DecoderState(false, false, v), Edge(EncA, 2), Edge(EncB, 1));
  }

  /** Any number of further confirming edges without re-arming change
      nothing: neither the counter nor the flags, and no event is reported. */
  lemma {:induction false} RepeatedConfirmIgnored(s: DecoderState, k: nat)
    ensures !s.cw ==> Run(s, Repeat(Edge(EncB, 0), k)) == RunResult(s, [])
    ensures !s.ccw ==> Run(s, Repeat(Edge(EncA, 0), k)) == RunResult(s, [])
  {
    if k > 0 {
      RepeatedConfirmIgnored(s, k - 1);
      assert Repeat(Edge(EncB, 0), k)[1..] == Repeat(Edge(EncB, 0), k - 1);
      assert Repeat(Edge(EncA, 0), k)[1..] == Repeat(Edge(EncA, 0), k - 1);
    }
  }

  /** A bouncing A line that falls to 0b10 several times before B falls to
      0b00 still counts one clockwise detent: arming is not repeated. */
  lemma {:induction false} BouncyArmCountsOnce(s: DecoderState, k: nat)
    requires s.cw
    ensures Run(s, Repeat(Edge(EncA, 2), k) + [Edge(EncB, 0)])
         == RunResult(DecoderState(false, false, Inc(s.value)), [Clockwise])
  {
    if k == 0 {
      assert Repeat(Edge(EncA, 2), 0) + [Edge(EncB, 0)] == [Edge(EncB, 0)];
    } else {
      BouncyArmCountsOnce(s, k - 1);
      assert (Repeat(Edge(EncA, 2), k) + [Edge(EncB, 0)])[1..]
          == Repeat(Edge(EncA, 2), k - 1) + [Edge(EncB, 0)];
    }
  }

  // ---- the counter is the replay of the reported events ----

  lemma {:induction false} ReplayAppend(v: UInt8, a: seq<Event>, b: seq<Event>)
    ensures Replay(v, a + b) == Replay(Replay(v, a), b)
    decreases |b|
  {
    if b == [] {
      assert a + b == a;
    } else {
      ReplayAppend(v, a, b[..|b| - 1]);
      assert (a + b)[..|a + b| - 1] == a + b[..|b| - 1];
    }
  }

  /** After any sequence of edges the counter equals the starting value with
      the reported events replayed on it: the counter changes only through a
      CW, CCW or Reset report. */
  lemma {:induction false} RunReplays(s: DecoderState, edges: seq<Edge>)
    ensures Run(s, edges).final.value == Replay(s.value, Run(s, edges).events)
    decreases |edges|
  {
    if edges != [] {
      var r := Step(s, edges[0].pin, edges[0].level);
      RunReplays(r.next, edges[1..]);
      ReplayAppend(s.value, EventList(r.event), Run(r.next, edges[1..]).events);
    }
  }

  function Count(log: seq<Event>, e: Event): nat {
    multiset(log)[e]
  }

  /** Without a button press the counter is the start value plus the
      clockwise detents minus the counter-clockwise ones, modulo 256. */
  lemma {:induction false} ReplayNetCount(v: UInt8, log: seq<Event>)
    requires Reset !in log
    ensures Replay(v, log) == (v + Count(log, Clockwise) - Count(log, CounterClockwise)) % 256
    decreases |log|
  {
    if log != [] {
      var init := log[..|log| - 1];
      assert log == init + [log[|log| - 1]];
      assert Reset !in init;
      ReplayNetCount(v, init);
    }
  }

  /** A button press forgets everything before it: the counter is the replay
      of what followed, from 0. */
  lemma ResetForgetsHistory(v: UInt8, before: seq<Event>, after: seq<Event>)
    ensures Replay(v, before + [Reset] + after) == Replay(0, after)
  {
    ReplayAppend(v, before + [Reset], after);
  }

  // ---- the handler as the source writes it ----

  /** The handler's private flags and the counter it writes. `Log` records the
      events the handler reports, in order. */
  class Decoder {
    var cw: bool
    var ccw: bool
    var value: UInt8
    ghost var Log: seq<Event>

    function State(): DecoderState
      reads this
    {
      DecoderState(cw, ccw, value)
    }

    /** The counter is what the reported events add up to from its initial 0. */
    ghost predicate Valid()
      reads this
    {
      value == Replay(0, Log)
    }

    /** The flags start clear and the counter at 0 (osd.c:51, 58-59). */
    constructor ()
      ensures State() == DecoderState(false, false, 0)
      ensures Log == [] && Valid()
    {
      cw, ccw, value := false, false, 0;
      Log := [];
    }

    /** `encoder_callback`: one edge on `pin` with the sampled `level`. */
    method HandleEdge(pin: nat, level: Level)
      requires Valid()
      modifies this
      ensures State() == Step(old(State()), pin, level).next
      ensures Log == old(Log) + EventList(Step(old(State()), pin, level).event)
      ensures Valid()
    {
      if pin == EncA {
        if !cw && level == 0x02 {
          cw := true;
        }
        if ccw && level == 0x00 {
          cw := false;
          ccw := false;
          value := Dec(value);
          Log := Log + [CounterClockwise];
        }
      } else if pin == EncB {
        if !ccw && level == 0x01 {
          ccw := true;
        }
        if cw && level == 0x00 {
          cw := false;
          ccw := false;
          value := Inc(value);
          Log := Log + [Clockwise];
        }
      } else if pin == EncSw {
        value := 0;
        Log := Log + [Reset];
      }
    }
  }
}
