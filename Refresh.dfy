/**
 * The display refresher: the body of `main`'s `while(true)` loop
 * (osd.c:134-148). Each pass compares the shared counter with
 * `previous_value`; only when they differ does it format the counter into a
 * 4-byte buffer, draw it and remember the value (osd.c:136-145).
 *
 * The display calls (clear, draw string, show) are one abstract "render"
 * of a text; the refresher's `Rendered` log records those texts in order.
 */
module Refresh {
  import opened Bytes
  import opened Format

  /** `previous_value`'s initial value (osd.c:50). */
  const InitialPrevious: UInt8 := 255

  /** What one pass does: the text it renders, if any, and the new
      `previous_value`. */
  datatype PollResult = PollResult(render: Option<string>, previous: UInt8)

  /** One pass of the loop with the counter sampled as `value`. A pass renders
      exactly when the counter differs from the last value it recorded, shows
      the counter's full numeral, and always leaves `previous_value` equal to
      the counter. */
  function PollStep(previous: UInt8, value: UInt8): (r: PollResult)
    ensures r.render.Some? <==> value != previous
    ensures r.render.Some? ==> r.render.value == Decimal(value)
    ensures r.previous == value
  {
    ValueFitsBuffer(value);
    if value != previous then PollResult(Some(ValueText(value)), value)
    else PollResult(None, previous)
  }

  function RenderList(r: PollResult): seq<string> {
    if r.render.Some? then [r.render.value] else []
  }

  /** `previous_value` after passes that sampled `samples`. */
  function LastSample(previous: UInt8, samples: seq<UInt8>): UInt8 {
    if samples == [] then previous else samples[|samples| - 1]
  }

  /** The texts rendered, in order, by passes that sample `samples` in turn,
      starting with `previous_value == previous`. */
  function Renders(previous: UInt8, samples: seq<UInt8>): seq<string>
    decreases |samples|
  {
    if samples == [] then []
    else
      var init := samples[..|samples| - 1];
      Renders(previous, init) + RenderList(PollStep(LastSample(previous, init), samples[|samples| - 1]))
  }

  /** The passes at which the sampled counter differs from the one before. */
  ghost function ChangePoints(previous: UInt8, samples: seq<UInt8>): set<nat> {
    set i | 0 <= i < |samples| && ChangedAt(previous, samples, i)
  }

  predicate ChangedAt(previous: UInt8, samples: seq<UInt8>, i: nat)
    requires i < |samples|
  {
    samples[i] != if i == 0 then previous else samples[i - 1]
  }

  /** A run of passes renders once per change of the sampled counter, and
      never when it did not change. */
  lemma {:induction false} RenderCount(previous: UInt8, samples: seq<UInt8>)
    ensures |Renders(previous, samples)| == |ChangePoints(previous, samples)|
    decreases |samples|
  {
    if samples == [] {
      assert ChangePoints(previous, samples) == {};
    } else {
      var n := |samples| - 1;
      var init := samples[..n];
      RenderCount(previous, init);
      var before := ChangePoints(previous, init);
      var changed := samples[n] != LastSample(previous, init);
      assert ChangePoints(previous, samples) == before + (if changed then {n} else {});
      assert n !in before;
    }
  }

  /** The refresher does nothing at all exactly when every sample equals
      the value it last recorded. */
  lemma {:induction false} NoRenderIffUnchanged(previous: UInt8, samples: seq<UInt8>)
    ensures Renders(previous, samples) == [] <==> forall i :: 0 <= i < |samples| ==> samples[i] == previous
    decreases |samples|
  {
    if samples != [] {
      var init := samples[..|samples| - 1];
      NoRenderIffUnchanged(previous, init);
      if Renders(previous, init) == [] {
        assert forall i :: 0 <= i < |init| ==> init[i] == previous;
        assert LastSample(previous, init) == previous;
      } else {
        assert exists i :: 0 <= i < |init| && init[i] != previous;
      }
    }
  }

  /** Consecutive renders always show different texts (the value is
      redrawn only when it changed), the first differs from what
      `previous_value` held, and after the passes the last text rendered is
      the numeral of the counter's latest sample. */
  lemma {:induction false} RendersTrackCounter(previous: UInt8, samples: seq<UInt8>)
    ensures var r := Renders(previous, samples);
      && (forall k :: 0 <= k < |r| - 1 ==> r[k] != r[k + 1])
      && (r != [] ==> r[0] != Decimal(previous))
      && (r != [] ==> r[|r| - 1] == Decimal(LastSample(previous, samples)))
    decreases |samples|
  {
    if samples != [] {
      var init := samples[..|samples| - 1];
      var x := samples[|samples| - 1];
      var last := LastSample(previous, init);
      RendersTrackCounter(previous, init);
      NoRenderIffUnchanged(previous, init);
      DecimalInjective(last, x);
      DecimalInjective(previous, x);
    }
  }

  /** The loop starts with `previous_value` 255 and the counter 0 (osd.c:50-51),
      so its first pass renders "0"; had the counter already reached 255, the
      first pass would render nothing. */
  lemma FirstPoll()
    ensures PollStep(InitialPrevious, 0).render == Some("0")
    ensures PollStep(InitialPrevious, 255).render == None
  {
  }

  /** Samples 0, 0, 1, 1, 1, 2 render "1" then "2" once "0" is on the screen,
      and "0", "1", "2" from the loop's initial state. */
  lemma RenderExample()
    ensures Renders(0, [0, 0, 1, 1, 1, 2]) == ["1", "2"]
    ensures Renders(InitialPrevious, [0, 0, 1, 1, 1, 2]) == ["0", "1", "2"]
  {
    var s: seq<UInt8> := [0, 0, 1, 1, 1, 2];
    assert s[..5] == [0, 0, 1, 1, 1];
    assert s[..5][..4] == [0, 0, 1, 1];
    assert s[..5][..4][..3] == [0, 0, 1];
    assert s[..5][..4][..3][..2] == [0, 0];
    assert s[..5][..4][..3][..2][..1] == [0];
    assert s[..5][..4][..3][..2][..1][..0] == [];
    ValueFitsBuffer(0);
    ValueFitsBuffer(1);
    ValueFitsBuffer(2);
    assert Renders(0, [0]) == [];
    assert Renders(0, [0, 0]) == [];
    assert Renders(0, [0, 0, 1]) == ["1"];
    assert Renders(0, [0, 0, 1, 1]) == ["1"];
    assert Renders(0, [0, 0, 1, 1, 1]) == ["1"];
    assert Renders(InitialPrevious, [0]) == ["0"];
    assert Renders(InitialPrevious, [0, 0]) == ["0"];
    assert Renders(InitialPrevious, [0, 0, 1]) == ["0", "1"];
    assert Renders(InitialPrevious, [0, 0, 1, 1]) == ["0", "1"];
    assert Renders(InitialPrevious, [0, 0, 1, 1, 1]) == ["0", "1"];
  }

  /** The main loop's change detection, with `previous_value` as its field. */
  class Refresher {
    var previous: UInt8
    ghost var Rendered: seq<string>

    /** Whatever the display shows is the numeral of `previous_value`. */
    ghost predicate Valid()
      reads this
    {
      Rendered != [] ==> Rendered[|Rendered| - 1] == Decimal(previous)
    }

    constructor ()
      ensures previous == InitialPrevious && Rendered == [] && Valid()
    {
      previous := InitialPrevious;
      Rendered := [];
    }

    /** One pass of the loop body with the counter sampled as `value`
        (osd.c:136-146). */
    method Poll(value: UInt8)
      requires Valid()
      modifies this
      ensures Rendered == old(Rendered) + RenderList(PollStep(old(previous), value))
      ensures previous == value && Valid()
    {
      if value != previous {
        var text := Snprintf(ValueBufferSize, Decimal(value)).text;
        ValueFitsBuffer(value);
        Rendered := Rendered + [text];
        previous := value;
      }
    }

    /** Successive passes of the loop, the counter sampled as `samples`. */
    method PollEach(samples: seq<UInt8>)
      requires Valid()
      modifies this
      ensures Rendered == old(Rendered) + Renders(old(previous), samples)
      ensures previous == LastSample(old(previous), samples) && Valid()
    {
      var i := 0;
      while i < |samples|
        invariant 0 <= i <= |samples|
        invariant Rendered == old(Rendered) + Renders(old(previous), samples[..i])
        invariant previous == LastSample(old(previous), samples[..i])
        invariant Valid()
      {
        assert samples[..i + 1][..i] == samples[..i];
        Poll(samples[i]);
        i := i + 1;
      }
      assert samples[..i] == samples;
    }
  }
}
