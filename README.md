# PS3 Eye camera parameter setters and microphone history, in Dafny

This project models two sequential parts of the PS3 Eye driver and its
microphone sample program, and proves properties about them.

- **The camera parameter setters** (`accessors.cpp`). Each setter caches a
  logical value in a field of the camera. It then either writes whole bytes
  to the sensor's 8-bit registers, or does a read-modify-write of selected
  bits.
  - `Registers` holds the register-file view: a sequence of 256 bytes
    (`bv8`), `ToByte` (the implicit `int` to `uint8_t` conversion) and
    `SetBits` (one read-modify-write).
  - `Accessors.Camera` is a class. Its fields are the cached values and the
    register file. `RegRead` and `RegWrite` stand for the bus transfers.
  - Every setter states the new cached values, the bytes or bits it writes,
    and that no other register changes.
  - The pure encodings are separate functions with their own properties:
    - the split exposure encoding (`ExposureRegisters`, proved by
      `ExposureRoundTrip`);
    - the four-tier gain remap (`GainByte`);
    - the inverted-sense flip bits (`FlipRegister`).
- **The audio history ring buffer** (`MyAudioCallback` in `audio.cpp`).
  Each channel has a fixed number of slots. Frames are written circularly,
  and a fifth channel holds the mean of the four raw channels of the same
  frame.
  - `Audio.MyAudioCallback` keeps the history in an `array2<real>`, indexed
    channel × slot, plus the count and the write index.
  - A ghost field `Slots` holds the same history in chronological order. The
    class invariant ties every physical slot to its chronological position,
    `Age(s, firstHistoryFrame, capacity)`.
  - `AudioFrames` holds the pure specification:
    - `Retained`: the frames a history keeps;
    - `Timeline`: the zero slots, then the retained frames' entries;
    - `Scrolled`: the view after a batch;
    - `Advanced`: the write index after `i` frames;
    - lemmas connecting them.

Samples are normalised with exact `real` arithmetic in place of
single-precision floats.

Facts of the code that a reader of the setters and the display walk may
not expect, all followed by the model:

- **Hue sign bit.** The comment on `val -= 90` (accessors.cpp:104) says the
  angle ranges from -90 to 90, and the write guarded by `huesin < 0`
  (accessors.cpp:108-110) is commented as the hue sign bit, bit 0x02 of
  register 0xAB. But `huesin` is a `uint16_t`, so that test never holds:
  the bit is always cleared, and the branch that sets it and negates
  `huesin` is dead. `SetHue` marks that branch with `assert false`.
- **Hue bytes.** The products `sin(val) * 0x80` and `cos(val) * 0x80` are
  truncated by a `uint8_t` cast, not rounded, and the angle is passed to
  `sin` and `cos` in degrees, not converted to radians. Neither shows in the
  model, since it receives those bytes as parameters.
- **Walk over a history that is not yet full.** The walk starts at
  `firstHistoryFrame` (audio.cpp:81), which before the first wrap is the
  count of frames written. So it reads the never-written zero slots first
  and the frames after them, until the history is full.
- **Record of pushed frames.** A ghost field `Pushed` keeps every frame
  written since construction. `Recorded()` says that the view, the count
  and the write index are those of an empty history after `Pushed`. The
  constructor establishes it and `HandleAudioData` keeps it. Under it,
  `BufferBeforeWrap` places pushed frame `s` in slot `s`, and
  `BufferAfterWrap` finds the last capacity frames, in push order, from
  `firstHistoryFrame` on.

## Model

| member | source | states |
|---|---|---|
| Registers.ToByte | accessors.cpp:88 | The byte a bus write receives for an `int` is the value modulo 256, its low two's-complement byte |
| Registers.SetBits | accessors.cpp:15-21 | A read-modify-write with `\| mask` sets every bit of the mask, and one with `& ~mask` clears every bit of the mask; bits outside the mask are kept |
| Registers.SetBitsAbsorbs | accessors.cpp:65-68 | Clearing a bit and then conditionally setting it gives the same byte as writing that bit directly |
| Accessors.GainByte | accessors.cpp:155-173 | The written gain byte keeps the low nibble of the request; the high nibble is 0x0, 0x3, 0x7 or 0xF for request bits 0x30 equal to 0x00, 0x10, 0x20 or 0x30; bits 0xC0 of the request do not matter |
| Accessors.GainByteIncreasing | accessors.cpp:155-173 | Over requests 0x00..0x3F the remap is strictly increasing |
| Accessors.ExposureRegisters | accessors.cpp:74-75 | Register 0x08 gets `e >> 7` modulo 256 (the quotient by 128) and register 0x10 gets `e << 1` modulo 256 |
| Accessors.ExposureRoundTrip | accessors.cpp:73-75 | Registers 0x08 and 0x10, read together as one big-endian value, hold `2 * e` for every exposure `0 <= e < 0x8000`, so halving that value gives `e` back; bit 0 of register 0x10 is always clear |
| Accessors.ExposureSplit | accessors.cpp:74-75 | `e << 1` modulo 256 is twice the low seven bits of `e`, and `e >> 7` fits a byte whenever `e` fits 15 bits |
| Accessors.FlipRegister | accessors.cpp:144-148 | In register 0x0C, bit 0x40 is set exactly when there is no horizontal flip and bit 0x80 exactly when there is no vertical flip; bits 0x3F are kept |
| Accessors.Widen | accessors.cpp:105-108 | A byte held in a `uint16_t` is below 0x100, so it is never negative, and narrowing it gives the byte back |
| Accessors.Camera.RegRead | accessors.cpp:15 | A bus read returns the register's current byte |
| Accessors.Camera.RegWrite | accessors.cpp:15 | A bus write sets exactly one register to the byte written; no other register and no cached value changes |
| Accessors.Camera.SetAutoGain | accessors.cpp:10-23 | Caches `auto_gain`; sets (true) or clears (false) bit 0x04 of register 0x13 and bits 0x03 of register 0x64; keeps all other bits of both registers; no other register changes |
| Accessors.Camera.SetAwb | accessors.cpp:25-39 | Caches `awb`; sets or clears bit 0x02 of register 0x13 and bit 0x40 of register 0x63; keeps every other bit and register |
| Accessors.Camera.SetAec | accessors.cpp:41-52 | Caches `aec`; sets or clears bit 0x01 of register 0x13 only; keeps every other bit and register |
| Accessors.Camera.SetFramerate | accessors.cpp:54-60 | While streaming, no cached value changes; otherwise the frame rate becomes the normalised rate; the register file never changes |
| Accessors.Camera.SetTestPatternStatus | accessors.cpp:62-69 | Caches the test-pattern flag; bit 0x01 of register 0x0C becomes that flag, and every other bit and register is kept |
| Accessors.Camera.SetExposure | accessors.cpp:71-76 | Caches the exposure; registers 0x08 and 0x10 get the low bytes of `e >> 7` and `e << 1`; no other register changes |
| Accessors.Camera.SetSharpness | accessors.cpp:78-83 | Caches the sharpness; its low byte goes to both 0x91 and 0x8E; no other register changes |
| Accessors.Camera.SetContrast | accessors.cpp:85-89 | Caches the contrast; its low byte goes to 0x9C; no other register changes |
| Accessors.Camera.SetBrightness | accessors.cpp:91-95 | Caches the brightness; its low byte goes to 0x9B; no other register changes |
| Accessors.Camera.SetHue | accessors.cpp:97-117 | Caches the hue; the cosine byte of `val - 90` goes to 0xA9 and the sine byte to 0xAA; bit 0x02 of 0xAB is always cleared and its other bits kept; no other register changes |
| Accessors.Camera.SetRedBalance | accessors.cpp:119-124 | Caches the red balance; its low byte goes to 0x02; no other register changes |
| Accessors.Camera.SetBlueBalance | accessors.cpp:126-131 | Caches the blue balance; its low byte goes to 0x01; no other register changes |
| Accessors.Camera.SetGreenBalance | accessors.cpp:133-138 | Caches the green balance; its low byte goes to 0x03; no other register changes |
| Accessors.Camera.SetFlipStatus | accessors.cpp:140-149 | Caches both flip flags; register 0x0C becomes `FlipRegister` of its old value; no other register changes |
| Accessors.Camera.SetGain | accessors.cpp:151-174 | Caches the requested gain unremapped; register 0x00 gets the remap `GainByte` of the request's low byte, as the masks on the `uint8_t` value imply; no other register changes |
| Accessors.Camera.SetSaturation | accessors.cpp:176-181 | Caches the saturation; its low byte goes to 0xA7 and 0xA8; no other register changes |
| Accessors.Camera.Size | accessors.cpp:189-199 | QVGA gives 320×240, and VGA or any unrecognised resolution gives 640×480 (both directions); the aspect is always 4:3 |
| AudioFrames.Normalize | audio.cpp:49 | A signed 16-bit sample divided by 2^15 lies in [-1, 1) |
| AudioFrames.Entry | audio.cpp:45-61 | A frame's slot holds the four normalised samples, and in channel 4 the mean of those same four values |
| AudioFrames.Retained | audio.cpp:43-71 | A history of capacity `n` keeps the last `min(n, pushed)` frames, in push order |
| AudioFrames.RetainedConcat | audio.cpp:43-71 | Writing frames in two batches keeps the same frames as writing them in one |
| AudioFrames.Timeline | audio.cpp:33-36 | The chronological view has one entry per slot: never-written (zero) slots first, then the retained frames' entries |
| AudioFrames.TimelineStep | audio.cpp:43-71 | Writing one frame drops the oldest slot of the view and appends the frame's entry |
| AudioFrames.TimelineSumIsMean | audio.cpp:54-61 | In every slot of the view, channel 4 is the mean of channels 0..3 |
| AudioFrames.FillBeforeWrap | audio.cpp:43-71 | Fewer frames than the capacity are all retained, and frame `s` is the view entry of physical slot `s` |
| AudioFrames.FullAfterWrap | audio.cpp:43-71 | After at least capacity frames, the view is exactly the last capacity frames in push order |
| AudioFrames.Entries | audio.cpp:43-71 | The entries of a batch, one per frame, in order |
| AudioFrames.Scrolled | audio.cpp:43-71 | Scrolling by a batch keeps the view's length |
| AudioFrames.ScrolledShift | audio.cpp:43-71 | A batch of at most capacity frames shifts the view left by its length and appends its entries; the slots it does not reach keep their order and contents |
| AudioFrames.ScrolledTimeline | audio.cpp:43-71 | Scrolling the view of the retained frames by a batch gives the view of the frames retained after the batch |
| AudioFrames.ScrolledPrefix | audio.cpp:43-71 | Scrolling by the first `i` frames of a batch does not depend on the frames after them |
| AudioFrames.ScrolledConcat | audio.cpp:43-71 | Scrolling by one batch and then by the first `n` frames of another is scrolling by both in one go |
| AudioFrames.AdvancedConcat | audio.cpp:67-70 | Stepping the write index `i` times and then `j` times is stepping it `i + j` times |
| AudioFrames.RecordedAfterBatch | audio.cpp:43-71 | When a view, count and write index record the pushed frames, scrolling, counting and stepping them by a batch makes them record the pushed frames followed by the batch |
| AudioFrames.RecordedTimeline | audio.cpp:29-71 | The view recorded for the pushed frames is the timeline of the frames the history retains |
| AudioFrames.RecordedBeforeWrap | audio.cpp:43-71 | Before the first wrap, a record of the pushed frames has its write index at their number, each pushed frame in the slot of its push order, and zeros beyond |
| AudioFrames.RecordedAfterWrap | audio.cpp:43-71 | After the first wrap, entry `k` of a record is the `k`-th of the last capacity pushed frames |
| AudioFrames.RecordedSumIsMean | audio.cpp:54-61 | In every entry of a record, channel 4 is the mean of channels 0..3 |
| AudioFrames.Age | audio.cpp:81-93 | The chronological position of a physical slot, counted from the write index with wrap-around, is itself a slot index |
| AudioFrames.Next | audio.cpp:67-70 | The write index after one frame is the next slot, wrapping to 0, and stays a slot index |
| AudioFrames.AgeWalk | audio.cpp:81-93 | The walk from the write index, stepping with wrap-around, reaches at step `i` the slot of age `i` |
| AudioFrames.AdvancedAge | audio.cpp:81-93 | Every slot is reached by that walk, at the step given by its age |
| AudioFrames.AdvancedFromZero | audio.cpp:67-70 | Before the first wrap, the write index after `i` frames from slot 0 is `i` |
| AudioFrames.AgeNext | audio.cpp:67-70 | Advancing the write index makes the slot just written the newest and every other slot one step older |
| AudioFrames.Advanced | audio.cpp:67-70 | The write index after any number of frames stays below the capacity |
| AudioFrames.AdvancedIsMod | audio.cpp:67-70 | Stepping the write index `i` times from `start` gives `(start + i) mod capacity` |
| Audio.MyAudioCallback.constructor | audio.cpp:29-37 | Every channel has `capacity` slots, all zero; the count and the write index are 0; the view is that of an empty history, which records no pushed frame |
| Audio.MyAudioCallback.WriteSlot | audio.cpp:45-61 | Slot `firstHistoryFrame` of channels 0..3 gets the normalised samples and channel 4 their mean; every other slot of every channel is unchanged |
| Audio.MyAudioCallback.Push | audio.cpp:43-71 | One frame: the view drops its oldest entry and appends the frame's; the frame is appended to the pushed frames; the count grows by one up to the capacity; the write index advances and wraps to 0; only the written slot changes; the invariant is kept |
| Audio.MyAudioCallback.HandleAudioData | audio.cpp:39-72 | A batch of `numFrames` frames scrolls the view by the batch and is appended to the pushed frames; the count saturates at the capacity; the write index advances `numFrames` times; a history that recorded everything pushed before still does; a batch of no frames changes no slot |
| Audio.MyAudioCallback.SumChannelIsMean | audio.cpp:54-61 | In every physical slot of a history that records its pushed frames, channel 4 holds the mean of channels 0..3 |
| Audio.MyAudioCallback.BufferBeforeWrap | audio.cpp:43-71 | When fewer frames than the capacity have been pushed since construction, slot `s` of every channel holds pushed frame `s`, and the slots beyond are zero |
| Audio.MyAudioCallback.BufferAfterWrap | audio.cpp:43-71 | When at least capacity frames have been pushed since construction, reading from `firstHistoryFrame` onwards, with wrap-around, gives the last capacity pushed frames in push order |
| Audio.MyAudioCallback.WalkHistory | audio.cpp:75-96 | For each of the five channels, the walk yields `capacity - 1` pairs of neighbouring slots, and pair `n` is view entries `n` and `n + 1`, oldest first |
| Audio.MyAudioCallback.WalkChannel | audio.cpp:81-94 | The walk over one channel starts at the write index, wraps from the last slot to slot 0, and yields the view's neighbouring entries in order |

## Left out

- The control-bus transport (`sccb_reg_read`, `sccb_reg_write`) and the USB layer are I/O. The bus is modelled as reads and writes of the in-memory register file. The code neither checks nor reports bus failures, so no error path is lost.
- `camera::set_debug` (accessors.cpp:183-187) only sets global debug flags of the USB manager singleton.
- The numeric values of `sin(val) * 0x80` and `cos(val) * 0x80` in `set_hue` are floating-point trigonometry. They enter `SetHue` as byte-valued function parameters. The cast of a negative float to `uint8_t` is undefined in C++ and is not modelled either.
- `normalize_framerate` is not part of this model. It enters `SetFramerate` as a function parameter.
- The "can't change framerate while streaming" debug message is output only.
- `ps3eye.hpp` is not part of this model. The camera's cached fields are taken to be `int` or `bool`, as the setters' parameters are.
- `ps3mic.h` is not part of this model. A raw sample is taken to be a signed 16-bit value, and the frame carries four of them.
- Floats are modelled as exact reals, so single-precision rounding of `/ float(1 << 15)` and `/ 4.f` is not captured.
- The capacity `seconds * kSampleRate` is float arithmetic over a constant that is not part of this model. It is the constructor's `capacity` parameter, required to be positive.
- `drawAudioHistory` prints the pairs it reads. The model returns them as a value from `WalkHistory` instead.
- `main`, its demo loop and its `printf` output are left out.
- The audio callback runs concurrently with the display reader, without synchronisation. The model is sequential.
- Audio.MyAudioCallback.HandleAudioData: states the new history as the scrolled view `Scrolled` of the old one, and keeps `Recorded()`. The facts that the slots not reached by a batch keep their contents, and that the retained frames are the last ones pushed, are proved about that view (`ScrolledShift`, `ScrolledTimeline`, `BufferBeforeWrap`, `BufferAfterWrap`), not in the method's own postcondition.
