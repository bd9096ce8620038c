/** The audio callback of the sample program: it keeps a rolling history of
    the microphone array's samples, one circular buffer of slots per channel,
    and the display code walks that history oldest slot first. */
module Audio {
  import opened AudioFrames

  /** The audio callback with its per-channel history. */
  class MyAudioCallback {
    /** Slots per channel. */
    const maxHistoryFrames: nat
    /** One row per channel, one column per slot. */
    const histories: array2<real>
    /** Number of slots written so far, saturating at `maxHistoryFrames`. */
    var numHistoryFrames: nat
    /** The next slot to write; once the history is full, also the oldest slot. */
    var firstHistoryFrame: nat
    /** The history in chronological order, oldest slot first. */
    ghost var Slots: seq<Slot>
    /** Every frame written since construction, in order. */
    ghost var Pushed: seq<Frame>

    /** The buffer has five rows of `maxHistoryFrames` slots; until it is full
        the write index equals the count and the slots not yet written are
        zero; and physical slot `s` holds entry `Age(s, firstHistoryFrame, _)`
        of the chronological view. */
    ghost predicate Valid()
      reads this, histories
    {
      && 0 < maxHistoryFrames
      && histories.Length0 == NUM_CHANNELS
      && histories.Length1 == maxHistoryFrames
      && numHistoryFrames <= maxHistoryFrames
      && firstHistoryFrame < maxHistoryFrames
      && (numHistoryFrames < maxHistoryFrames ==> firstHistoryFrame == numHistoryFrames)
      && |Slots| == maxHistoryFrames
      && (forall k :: 0 <= k < maxHistoryFrames - numHistoryFrames ==> Slots[k] == EMPTY_ENTRY)
      && forall c, s :: 0 <= c < NUM_CHANNELS && 0 <= s < maxHistoryFrames ==>
           histories[c, s] == Slots[Age(s, firstHistoryFrame, maxHistoryFrames)][c]
    }

    /** The history records everything pushed since construction: the
        chronological view is the empty one scrolled by every pushed frame,
        the count is the number of pushed frames up to the capacity, and the
        write index has stepped once per pushed frame from slot 0. */
    ghost predicate Recorded()
      reads this
    {
      RecordedState(Slots, Pushed, numHistoryFrames, firstHistoryFrame, maxHistoryFrames)
    }

    /** An empty history of `capacity` slots per channel, all zero: the
        timeline of a history that retains no frame. */
    constructor (capacity: nat)
      requires 0 < capacity
      ensures Valid() && fresh(histories)
      ensures maxHistoryFrames == capacity
      ensures numHistoryFrames == 0 && firstHistoryFrame == 0
      ensures Slots == Timeline([], capacity) && Pushed == [] && Recorded()
      ensures forall c, s :: 0 <= c < NUM_CHANNELS && 0 <= s < capacity ==> histories[c, s] == 0.0
    {
      maxHistoryFrames := capacity;
      histories := new real[NUM_CHANNELS, capacity]((c, s) => 0.0);
      numHistoryFrames, firstHistoryFrame := 0, 0;
      Slots := Timeline([], capacity);
      Pushed := [];
    }

    /** Writes one frame into slot `firstHistoryFrame` of every channel: the
        four normalised raw samples first, then the derived channel computed
        from the values just written. No other slot changes. */
    method WriteSlot(frame: Frame)
      requires Valid()
      modifies histories
      ensures forall c, s :: 0 <= c < NUM_CHANNELS && 0 <= s < maxHistoryFrames ==>
        histories[c, s] == if s == firstHistoryFrame then Entry(frame)[c] else old(histories[c, s])
    {
      var c := 0;
      while c < NUM_RAW_CHANNELS
        invariant 0 <= c <= NUM_RAW_CHANNELS
        invariant forall c', s :: 0 <= c' < NUM_CHANNELS && 0 <= s < maxHistoryFrames ==>
          histories[c', s] == if s == firstHistoryFrame && c' < c then Entry(frame)[c'] else old(histories[c', s])
      {
        var value := Normalize(frame.channel[c]);
        histories[c, firstHistoryFrame] := value;
        c := c + 1;
      }
      histories[SUM_CHANNEL, firstHistoryFrame] :=
        (histories[0, firstHistoryFrame] +
         histories[1, firstHistoryFrame] +
         histories[2, firstHistoryFrame] +
         histories[3, firstHistoryFrame]) / 4.0;
    }

    /** One iteration of the frame loop: write `frame` into the slot at
        `firstHistoryFrame`, count it up to the capacity and advance the write
        index, wrapping to 0. In chronological order the oldest slot drops out
        and the frame's entry becomes the newest. */
    method Push(frame: Frame)
      requires Valid()
      modifies this, histories
      ensures Valid()
      ensures Slots == old(Slots)[1..] + [Entry(frame)]
      ensures Pushed == old(Pushed) + [frame]
      ensures numHistoryFrames == if old(numHistoryFrames) < maxHistoryFrames then old(numHistoryFrames) + 1 else maxHistoryFrames
      ensures firstHistoryFrame == Next(old(firstHistoryFrame), maxHistoryFrames)
      ensures forall c, s :: 0 <= c < NUM_CHANNELS && 0 <= s < maxHistoryFrames ==>
        histories[c, s] == if s == old(firstHistoryFrame) then Entry(frame)[c] else old(histories[c, s])
    {
      ghost var written := firstHistoryFrame;
      WriteSlot(frame);
      if numHistoryFrames < maxHistoryFrames {
        numHistoryFrames := numHistoryFrames + 1;
      }
      firstHistoryFrame := firstHistoryFrame + 1;
      if firstHistoryFrame == maxHistoryFrames {
        firstHistoryFrame := 0;
      }
      Slots := Slots[1..] + [Entry(frame)];
      Pushed := Pushed + [frame];
      forall c, s | 0 <= c < NUM_CHANNELS && 0 <= s < maxHistoryFrames
        ensures histories[c, s] == Slots[Age(s, firstHistoryFrame, maxHistoryFrames)][c]
      {
        AgeNext(s, written, maxHistoryFrames);
      }
    }

    /** Writes the first `numFrames` frames of `frames` into the history, one
        slot per frame, each as `Push` does: the chronological view scrolls by
        one entry per frame, the count grows by the number of frames up to the
        capacity, and the write index advances once per frame. */
    method HandleAudioData(frames: seq<Frame>, numFrames: int)
      requires Valid()
      requires numFrames <= |frames|
      modifies this, histories
      ensures Valid()
      ensures var n := if numFrames < 0 then 0 else numFrames;
        && Slots == Scrolled(old(Slots), frames, n)
        && Pushed == old(Pushed) + frames[..n]
        && firstHistoryFrame == Advanced(old(firstHistoryFrame), n, maxHistoryFrames)
        && numHistoryFrames == (if old(numHistoryFrames) + n < maxHistoryFrames then old(numHistoryFrames) + n else maxHistoryFrames)
      ensures old(Recorded()) ==> Recorded()
      ensures numFrames <= 0 ==> forall c, s :: 0 <= c < NUM_CHANNELS && 0 <= s < maxHistoryFrames ==>
        histories[c, s] == old(histories[c, s])
    {
      ghost var recorded := Recorded();
      var i := 0;
      while i < numFrames
        invariant 0 <= i && (i <= numFrames || i == 0)
        invariant Valid()
        invariant Slots == Scrolled(old(Slots), frames, i)
        invariant i <= |frames| && Pushed == old(Pushed) + frames[..i]
        invariant firstHistoryFrame == Advanced(old(firstHistoryFrame), i, maxHistoryFrames)
        invariant numHistoryFrames == (if old(numHistoryFrames) + i < maxHistoryFrames then old(numHistoryFrames) + i else maxHistoryFrames)
      {
        Push(frames[i]);
        assert frames[..i + 1] == frames[..i] + [frames[i]];
        i := i + 1;
      }
      if recorded {
        RecordedAfterBatch(old(Slots), old(Pushed), old(numHistoryFrames), old(firstHistoryFrame), frames, i, maxHistoryFrames);
      }
    }

    /** The derived channel of every slot holds the mean of the raw channels of
        that slot, in a history that records everything pushed into it. */
    lemma SumChannelIsMean()
      requires Valid() && Recorded()
      ensures forall s :: 0 <= s < maxHistoryFrames ==>
        histories[SUM_CHANNEL, s] == (histories[0, s] + histories[1, s] + histories[2, s] + histories[3, s]) / 4.0
    {
      RecordedSumIsMean(Slots, Pushed, numHistoryFrames, firstHistoryFrame, maxHistoryFrames);
    }

    /** Before the history wraps: when fewer frames than the capacity have been
        pushed since construction, slot `s` of every channel holds pushed frame
        `s`, and the slots beyond are still zero. */
    lemma BufferBeforeWrap()
      requires Valid() && Recorded() && |Pushed| < maxHistoryFrames
      ensures forall c, s :: 0 <= c < NUM_CHANNELS && 0 <= s < |Pushed| ==> histories[c, s] == Entry(Pushed[s])[c]
      ensures forall c, s :: 0 <= c < NUM_CHANNELS && |Pushed| <= s < maxHistoryFrames ==> histories[c, s] == 0.0
    {
      RecordedBeforeWrap(Slots, Pushed, numHistoryFrames, firstHistoryFrame, maxHistoryFrames);
    }

    /** After the history wrapped: when at least `maxHistoryFrames` frames have
        been pushed since construction, the slot of age `k`, read from
        `firstHistoryFrame` onwards, holds the `k`-th of the last
        `maxHistoryFrames` pushed frames. */
    lemma BufferAfterWrap()
      requires Valid() && Recorded() && maxHistoryFrames <= |Pushed|
      ensures forall c, s :: 0 <= c < NUM_CHANNELS && 0 <= s < maxHistoryFrames ==>
        histories[c, s] == Entry(Pushed[|Pushed| - maxHistoryFrames + Age(s, firstHistoryFrame, maxHistoryFrames)])[c]
    {
      RecordedAfterWrap(Slots, Pushed, numHistoryFrames, firstHistoryFrame, maxHistoryFrames);
    }

    /** The walk that reads the history for display: for each channel, start at
        `firstHistoryFrame` and read every pair of neighbouring slots, wrapping
        to slot 0, `maxHistoryFrames - 1` pairs in all. The pairs come out in
        chronological order: pair `n` is entries `n` and `n + 1` of `Slots`. */
    method WalkHistory() returns (pairs: seq<seq<(real, real)>>)
      requires Valid()
      ensures |pairs| == NUM_CHANNELS
      ensures forall c :: 0 <= c < NUM_CHANNELS ==> |pairs[c]| == maxHistoryFrames - 1
      ensures forall c, n :: 0 <= c < NUM_CHANNELS && 0 <= n < maxHistoryFrames - 1 ==>
        pairs[c][n] == (Slots[n][c], Slots[n + 1][c])
    {
      pairs := [];
      var c := 0;
      while c < NUM_CHANNELS
        invariant 0 <= c <= NUM_CHANNELS && |pairs| == c
        invariant forall c' :: 0 <= c' < c ==> |pairs[c']| == maxHistoryFrames - 1
        invariant forall c', n :: 0 <= c' < c && 0 <= n < maxHistoryFrames - 1 ==>
          pairs[c'][n] == (Slots[n][c'], Slots[n + 1][c'])
      {
        var row := WalkChannel(c);
        pairs := pairs + [row];
        c := c + 1;
      }
    }

    /** The inner walk over one channel: the pairs of neighbouring slots from
        the oldest slot on, wrapping from the last slot to slot 0. */
    method WalkChannel(c: nat) returns (row: seq<(real, real)>)
      requires Valid() && c < NUM_CHANNELS
      ensures |row| == maxHistoryFrames - 1
      ensures forall n :: 0 <= n < maxHistoryFrames - 1 ==> row[n] == (Slots[n][c], Slots[n + 1][c])
    {
      row := [];
      var i, n := firstHistoryFrame, 0;
      while n + 1 < maxHistoryFrames
        invariant 0 <= n <= maxHistoryFrames - 1
        invariant 0 <= i < maxHistoryFrames && Age(i, firstHistoryFrame, maxHistoryFrames) == n
        invariant |row| == n
        invariant forall k :: 0 <= k < n ==> row[k] == (Slots[k][c], Slots[k + 1][c])
      {
        var index1 := i;
        var index2 := if i + 1 == maxHistoryFrames then 0 else i + 1;
        var value1 := histories[c, index1];
        var value2 := histories[c, index2];
        row := row + [(value1, value2)];
        i := index2;
        n := n + 1;
      }
    }
  }
}
