# pico_oled_rotary: the rotary-encoder decoder and the display refresher

A Dafny model of the firmware in `osd.c`. A Raspberry Pi Pico reads a
quadrature rotary encoder with a push-button, keeps a one-byte counter and
shows the counter on an SSD1306 OLED whenever it changes.

Two pieces of logic are modelled and proved:

- **The quadrature decoder** (`encoder_callback`). It is an interrupt handler that
  runs on every falling edge of rotation-A (GPIO 6), rotation-B (GPIO 7) and
  the button (GPIO 8). It samples both rotation lines as a 2-bit level, with A in
  bit 0 and B in bit 1.
  - An A edge at `0b10` arms `clockwise_fall`.
  - A B edge at `0b01` arms `counterclockwise_fall`.
  - An edge of the other line at `0b00` confirms the armed direction. It
    clears both flags and steps the counter up or down. The counter wraps
    modulo 256.
  - The button sets the counter to 0.

  `Encoder.Step` is the handler as a function of the state
  `(clockwise_fall, counterclockwise_fall, value)`. `Encoder.Decoder` is the handler
  as the source writes it: a class whose fields are updated in place, proved to follow `Step`.
  Its ghost `Log` records the CW / CCW / Reset reports. The class keeps the
  invariant that the counter is the replay of that log from 0.
- **The display refresher** (the body of `main`'s `while(true)` loop). Each
  pass compares the counter with `previous_value`, which starts at 255. Only when they
  differ does a pass format the counter with `snprintf(buf, 4, "%d", value)`,
  draw it, and record `previous_value = value`. `Refresh.Refresher` holds
  `previous_value` as a field. Its ghost `Rendered` log records the texts drawn.
  `Refresh.Renders` gives the texts drawn over a run of sampled counter values.
- `Osd.Firmware` joins the two. The decoder is the only writer of the counter, and the
  loop reads the counter from the decoder.

`Bytes` holds the `uint8_t` wrap-around arithmetic. `Format` holds the decimal
numeral, its parse-back partner and the `snprintf` truncation rule.

Two consequences of the code:

- Nothing in the handler keeps both flags from being armed at once: an A edge
  at `0b10` followed by a B edge at `0b01` arms both
  (`Encoder.BothArmedReachable`). From that state, the next confirming edge
  of either line counts a detent in its direction.
- The sentinel 255 makes the first pass render only while the counter differs
  from 255. If the counter were already 255 at the first pass, nothing would be
  drawn until it changed (`Refresh.FirstPoll`). At start-up the counter is 0,
  so the first pass draws "0".

## Model

| member | source | states |
|---|---|---|
| Bytes.Inc | osd.c:89 | `value++` on a `uint8_t`: one more, except that 255 wraps to 0 |
| Bytes.Dec | osd.c:73 | `value--` on a `uint8_t`: one less, except that 0 wraps to 255 |
| Bytes.IncDecInverse | osd.c:66-91 | a clockwise step and a counter-clockwise step undo each other |
| Format.Decimal | osd.c:139 | the `%d` numeral of a non-negative value: at least one character, digits only, a leading `0` exactly for zero |
| Format.ParseDecimal | osd.c:139 | reading the numeral back gives the number it was printed from |
| Format.DecimalInjective | osd.c:139 | two numbers print the same numeral if and only if they are equal |
| Format.ByteWidth | osd.c:138-139 | a byte prints with 1 digit below 10, 2 below 100, otherwise 3 |
| Format.Snprintf | osd.c:139 | `snprintf` returns the full length, keeps room for the NUL, keeps the whole text exactly when it fits, and otherwise keeps exactly its first `size - 1` characters |
| Format.ValueFitsBuffer | osd.c:138-139 | every counter value's numeral fits the 4-byte buffer: `snprintf` reports fewer than 4 characters and nothing is truncated |
| Format.ValueTextInjective | osd.c:138-142 | two counter values give the same display text if and only if they are equal |
| Format.ValueTextExamples | osd.c:139 | 0, 7, 42 and 255 display as "0", "7", "42", "255" |
| Encoder.Step | osd.c:53-102 | CW is reported iff a B edge at 0b00 finds clockwise armed; CCW iff an A edge at 0b00 finds counter-clockwise armed; Reset iff the button fired. The counter moves only by the reported event. A confirmation clears both flags. A reset keeps them. Otherwise a flag becomes set exactly by its arming edge (A at 0b10, B at 0b01) |
| Encoder.ArmClockwise | osd.c:61-64 | an A edge at 0b10 with clockwise clear sets clockwise and changes nothing else |
| Encoder.ArmCounterClockwise | osd.c:77-80 | a B edge at 0b01 with counter-clockwise clear sets counter-clockwise and changes nothing else |
| Encoder.ConfirmClockwise | osd.c:82-91 | a B edge at 0b00 with clockwise armed clears both flags, increments the counter modulo 256 (255 becomes 0) and reports CW |
| Encoder.ConfirmCounterClockwise | osd.c:66-75 | an A edge at 0b00 with counter-clockwise armed clears both flags, decrements the counter modulo 256 (0 becomes 255) and reports CCW |
| Encoder.ButtonResets | osd.c:93-101 | a button edge sets the counter to 0 from any state, leaves both flags as they were and reports Reset |
| Encoder.OtherPinIgnored | osd.c:61-101 | an edge on any other line changes neither the counter nor the flags and reports nothing |
| Encoder.ConfirmationNotRepeated | osd.c:61-91 | repeating the confirming edge right after a confirmation changes nothing further |
| Encoder.ClockwiseDetent | osd.c:61-91 | from the idle state, (A, 0b10) then (B, 0b00) adds exactly 1 modulo 256, ends with both flags clear and reports one CW |
| Encoder.CounterClockwiseDetent | osd.c:61-91 | from the idle state, (B, 0b01) then (A, 0b00) subtracts exactly 1 modulo 256, ends with both flags clear and reports one CCW |
| Encoder.DetentsWrap | osd.c:51-91 | a clockwise detent at 255 gives 0; a counter-clockwise detent at 0 gives 255 |
| Encoder.BothArmedReachable | osd.c:61-92 | (A, 0b10) then (B, 0b01) from idle arms both flags at once without changing the counter |
| Encoder.RepeatedConfirmIgnored | osd.c:61-92 | any number of confirming edges whose flag is clear leave the state unchanged and report nothing |
| Encoder.BouncyArmCountsOnce | osd.c:61-92 | with clockwise armed, any number of repeated (A, 0b10) edges followed by (B, 0b00) still count exactly one CW detent |
| Encoder.RunReplays | osd.c:53-102 | after any sequence of edges the counter is the starting value with the reported events replayed on it |
| Encoder.ReplayNetCount | osd.c:66-91 | without a button press, the counter is the start plus the CW reports minus the CCW reports, modulo 256 |
| Encoder.ResetForgetsHistory | osd.c:93-100 | after a button press the counter depends only on the events that followed it |
| Encoder.Decoder.constructor | osd.c:51-59 | both flags start clear, the counter at 0, nothing reported |
| Encoder.Decoder.HandleEdge | osd.c:53-102 | the in-place handler moves flags and counter exactly as `Step`, appends its report to the log, and keeps counter = replay of the log from 0 |
| Refresh.PollStep | osd.c:136-145 | a pass renders iff the counter differs from `previous_value`, renders the counter's full numeral, and leaves `previous_value` equal to the counter |
| Refresh.RenderCount | osd.c:134-148 | over a run of passes the number of renders equals the number of passes whose sample differs from the one before |
| Refresh.NoRenderIffUnchanged | osd.c:134-148 | a run of passes draws nothing if and only if every sample equals `previous_value` |
| Refresh.RendersTrackCounter | osd.c:134-148 | consecutive renders differ, the first differs from the old `previous_value`, and the last render is the numeral of the latest sample |
| Refresh.FirstPoll | osd.c:136-145 | with `previous_value` 255 and the counter at its initial 0 the first pass draws "0"; with the counter at 255 it draws nothing |
| Refresh.RenderExample | osd.c:134-148 | samples 0,0,1,1,1,2 render "1","2" after "0" is shown, and "0","1","2" from the initial `previous_value` |
| Refresh.Refresher.constructor | osd.c:50 | `previous_value` starts at 255, nothing drawn |
| Refresh.Refresher.Poll | osd.c:136-146 | one pass in place: the log grows by `PollStep`'s render, `previous_value` becomes the sample, and the last drawn text stays the numeral of `previous_value` |
| Refresh.Refresher.PollEach | osd.c:134-148 | successive passes over the samples draw exactly `Renders` of them and leave `previous_value` at the latest sample |
| Osd.Firmware.constructor | osd.c:49-59 | start-up state: counter 0, flags clear, `previous_value` 255, nothing drawn |
| Osd.Firmware.Interrupt | osd.c:53-102 | a handler call moves only the decoder's state, as `Step` says |
| Osd.Firmware.LoopPass | osd.c:134-148 | a loop pass moves only the refresher's state and leaves the display showing the counter's current numeral |

## Left out

- GPIO and interrupt set-up (osd.c:124-131) are platform calls. The line that fired is a parameter of `HandleEdge`.
- `gpio_get_all` sampling (osd.c:55-56) is not modelled. The 2-bit level is a parameter of type `Level` (a natural number below 4).
- I2C set-up and the SSD1306 driver calls (osd.c:112-120, 141-143) are a foreign library. A render is one abstract event carrying the drawn text, recorded in the ghost log `Refresher.Rendered`.
- The `printf` diagnostics (osd.c:74, 90, 100) are recorded only as the ghost events CW, CCW and Reset in `Decoder.Log`.
- `sleep_ms(5)` (osd.c:147) is timing and is not modelled.
- Concurrency is not modelled. The interrupt can pre-empt the loop at any point, but each handler call and each loop pass is one atomic step here. The single-writer / single-reader sharing of `value` is captured only by the frames: `Interrupt` modifies only the decoder and `LoopPass` only the refresher.
- A handler call in the middle of a loop pass is not modelled, and the refresher's invariant (the last drawn text is the numeral of `previous_value`) holds only because each pass is atomic. One pass of the source reads `value` three times (osd.c:136, 139, 145). A handler call between the formatting at osd.c:139 and the store at osd.c:145 would leave the old numeral on screen while `previous_value` already holds the new value, and nothing would be redrawn until the counter changed again. The model does not capture that interleaving.
- The main loop never ends. `Refresher.PollEach` models any finite prefix of its passes.
- Time-based debouncing is not modelled because the source does not implement it (osd.c:97).
