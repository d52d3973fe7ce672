/**
 * The firmware as a whole (osd.c:49-149): the encoder handler is the only
 * writer of the shared counter `value`, the main loop its only reader. Each
 * handler call and each pass of the loop is taken as one atomic step; the
 * refresher samples the counter the decoder holds.
 */
module Osd {
  import opened Bytes
  import opened Format
  import opened Encoder
  import opened Refresh

  class Firmware {
    const decoder: Decoder
    const refresher: Refresher

    ghost predicate Valid()
      reads this, decoder, refresher
    {
      decoder.Valid() && refresher.Valid()
    }

    /** Start-up: the counter at 0, both flags clear, `previous_value` at 255
        and nothing drawn yet (osd.c:50-51, 58-59). */
    constructor ()
      ensures Valid() && fresh(decoder) && fresh(refresher)
      ensures decoder.State() == DecoderState(false, false, 0) && decoder.Log == []
      ensures refresher.previous == InitialPrevious && refresher.Rendered == []
    {
      decoder := new Decoder();
      refresher := new Refresher();
    }

    /** An edge interrupt on `pin`, the rotation lines sampled as `level`.
        The refresher's state is not touched. */
    method Interrupt(pin: nat, level: Level)
      requires Valid()
      modifies decoder
      ensures Valid()
      ensures decoder.State() == Step(old(decoder.State()), pin, level).next
      ensures decoder.Log == old(decoder.Log) + EventList(Step(old(decoder.State()), pin, level).event)
    {
      decoder.HandleEdge(pin, level);
    }

    /** One pass of the main loop, sampling the decoder's counter. The counter
        and the flags are not touched; afterwards the last rendered text is
        the counter's numeral. */
    method LoopPass()
      requires Valid()
      modifies refresher
      ensures Valid()
      ensures refresher.Rendered == old(refresher.Rendered) + RenderList(PollStep(old(refresher.previous), decoder.value))
      ensures refresher.previous == decoder.value
      ensures refresher.Rendered != [] ==>
                refresher.Rendered[|refresher.Rendered| - 1] == Decimal(decoder.value)
    {
      refresher.Poll(decoder.value);
    }
  }

  /** The first pass after start-up draws "0"; a clockwise detent then makes
      the next pass draw "1". */
  method StartUpScenario()
  {
    var fw := new Firmware();
    fw.LoopPass();
    assert fw.refresher.Rendered == ["0"] by {
      FirstPoll();
    }
    fw.Interrupt(EncA, 2);
    fw.Interrupt(EncB, 0);
    assert fw.decoder.value == 1 && fw.decoder.Log == [Clockwise];
    fw.LoopPass();
    ValueTextExamples();
    assert fw.refresher.Rendered == ["0", "1"];
  }
}
