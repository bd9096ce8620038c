/** The microphone array's rolling history: a fixed number of slots per channel,
    written circularly one frame at a time, with a fifth channel that holds the
    mean of the four raw channels of the same frame. Samples are normalised
    with exact real arithmetic in place of single-precision floats. */
module AudioFrames {

  /** Raw channels in each frame delivered by the microphone array. */
  const NUM_RAW_CHANNELS: nat := 4
  /** Index of the derived channel holding the mean of the four raw channels. */
  const SUM_CHANNEL: nat := 4
  /** Channels kept in the history: the four raw ones and the derived one. */
  const NUM_CHANNELS: nat := 5
  /** Full-scale magnitude of a signed 16-bit sample, `1 << 15`. */
  const FULL_SCALE: real := 32768.0

  type Sample = x: int | -0x8000 <= x < 0x8000

  /** One frame of audio: one signed 16-bit sample per raw channel. */
  datatype AudioFrame = AudioFrame(channel: seq<Sample>)

  type Frame = f: AudioFrame | |f.channel| == NUM_RAW_CHANNELS witness AudioFrame([0, 0, 0, 0])

  /** A raw sample scaled to the range [-1, 1). */
  function Normalize(s: Sample): (v: real)
    ensures -1.0 <= v < 1.0
  {
    s as real / FULL_SCALE
  }

  /** The contents of one slot across all channels. */
  type Slot = e: seq<real> | |e| == NUM_CHANNELS witness [0.0, 0.0, 0.0, 0.0, 0.0]

  /** The values one frame leaves in its slot, one per channel: the normalised
      raw samples and, in the derived channel, their mean. */
  function Entry(f: Frame): (e: Slot)
    ensures forall c :: 0 <= c < NUM_RAW_CHANNELS ==> e[c] == Normalize(f.channel[c])
    ensures e[SUM_CHANNEL] == (e[0] + e[1] + e[2] + e[3]) / 4.0
  {
    var v0, v1, v2, v3 := Normalize(f.channel[0]), Normalize(f.channel[1]), Normalize(f.channel[2]), Normalize(f.channel[3]);
    [v0, v1, v2, v3, (v0 + v1 + v2 + v3) / 4.0]
  }

  /** The contents of a slot that no frame has written yet. */
  const EMPTY_ENTRY: Slot := [0.0, 0.0, 0.0, 0.0, 0.0]

  /** The frames a history of the given capacity retains after `pushed` was
      written into it in order: the last `capacity` of them, oldest first. */
  function Retained(pushed: seq<Frame>, capacity: nat): (r: seq<Frame>)
    ensures |r| == if |pushed| < capacity then |pushed| else capacity
    ensures r == pushed[|pushed| - |r|..]
  {
    if |pushed| <= capacity then pushed else pushed[|pushed| - capacity..]
  }

  /** Writing in two batches retains the same frames as writing everything at
      once: a batch boundary leaves no trace in the history. */
  lemma RetainedConcat(a: seq<Frame>, b: seq<Frame>, capacity: nat)
    ensures Retained(Retained(a, capacity) + b, capacity) == Retained(a + b, capacity)
  {
    var ra := Retained(a, capacity);
    var lhs := Retained(ra + b, capacity);
    var rhs := Retained(a + b, capacity);
    assert |lhs| == |rhs|;
    forall k | 0 <= k < |lhs|
      ensures lhs[k] == rhs[k]
    {
      var i := |ra + b| - |lhs| + k;
      assert lhs[k] == (ra + b)[i];
      if i < |ra| {
        assert (ra + b)[i] == a[|a| - |ra| + i];
      } else {
        assert (ra + b)[i] == b[i - |ra|];
      }
    }
  }

  /** Slot `k` of the chronological view of a history that retains `contents`:
      the never-written slots (still zero) come first, then the retained frames
      in the order they were pushed. */
  function TimelineAt(contents: seq<Frame>, capacity: nat, k: nat): Slot
    requires |contents| <= capacity && k < capacity
  {
    if k < capacity - |contents| then EMPTY_ENTRY else Entry(contents[k - (capacity - |contents|)])
  }

  /** One more frame of a batch: retaining it after the frames before it is
      retaining the batch up to and including it. */
  lemma RetainedPush(start: seq<Frame>, frames: seq<Frame>, i: nat, capacity: nat)
    requires i < |frames|
    ensures Retained(Retained(start + frames[..i], capacity) + [frames[i]], capacity)
         == Retained(start + frames[..i + 1], capacity)
  {
    var before := start + frames[..i];
    assert frames[..i + 1] == frames[..i] + [frames[i]];
    assert before + [frames[i]] == start + frames[..i + 1];
    RetainedConcat(before, [frames[i]], capacity);
  }

  /** The chronological view of a history that retains `contents`, oldest slot
      first, one entry per slot. */
  function Timeline(contents: seq<Frame>, capacity: nat): (t: seq<Slot>)
    requires |contents| <= capacity
    ensures |t| == capacity
    ensures forall k :: 0 <= k < capacity ==> t[k] == TimelineAt(contents, capacity, k)
  {
    seq(capacity, k requires 0 <= k < capacity => TimelineAt(contents, capacity, k))
  }

  /** Writing one frame drops the oldest slot of the timeline (a never-written
      one, or the oldest frame once the history is full) and appends the new
      frame's entry. */
  lemma TimelineStep(contents: seq<Frame>, f: Frame, capacity: nat)
    requires 0 < capacity && |contents| <= capacity
    ensures Timeline(Retained(contents + [f], capacity), capacity)
         == Timeline(contents, capacity)[1..] + [Entry(f)]
  {
    var after := Retained(contents + [f], capacity);
    var t := Timeline(contents, capacity);
    var t' := Timeline(after, capacity);
    var shifted := t[1..] + [Entry(f)];
    assert |t'| == |shifted|;
    forall k | 0 <= k < capacity
      ensures t'[k] == shifted[k]
    {
      TimelineStepAt(contents, f, capacity, k);
    }
  }

  lemma TimelineStepAt(contents: seq<Frame>, f: Frame, capacity: nat, k: nat)
    requires 0 < capacity && |contents| <= capacity && k < capacity
    ensures TimelineAt(Retained(contents + [f], capacity), capacity, k)
         == if k + 1 < capacity then TimelineAt(contents, capacity, k + 1) else Entry(f)
  {
    var pushed := contents + [f];
    var after := Retained(pushed, capacity);
    if |contents| < capacity {
      assert after == pushed;
      if k + 1 < capacity && capacity - |pushed| <= k {
        assert pushed[k - (capacity - |pushed|)] == contents[k + 1 - (capacity - |contents|)];
      }
    } else {
      assert after == pushed[1..];
      if k + 1 < capacity {
        assert after[k] == contents[k + 1];
      }
    }
  }

  /** The entries a batch of frames leaves in its slots, in order. */
  function Entries(fs: seq<Frame>): (es: seq<Slot>)
    ensures |es| == |fs|
    ensures forall i :: 0 <= i < |fs| ==> es[i] == Entry(fs[i])
  {
    seq(|fs|, i requires 0 <= i < |fs| => Entry(fs[i]))
  }

  lemma EntriesSnoc(fs: seq<Frame>, f: Frame)
    ensures Entries(fs + [f]) == Entries(fs) + [Entry(f)]
  {
    assert |Entries(fs + [f])| == |Entries(fs) + [Entry(f)]|;
    forall i | 0 <= i < |fs| + 1
      ensures Entries(fs + [f])[i] == (Entries(fs) + [Entry(f)])[i]
    {
      assert (fs + [f])[i] == if i < |fs| then fs[i] else f;
    }
  }

  lemma DropFirst<T>(a: seq<T>, b: seq<T>)
    requires 0 < |a|
    ensures (a + b)[1..] == a[1..] + b
  {
  }

  /** Every slot's derived channel is the mean of its four raw channels, both
      for slots that hold a frame and for slots not yet written. */
  lemma TimelineSumIsMean(contents: seq<Frame>, capacity: nat, k: nat)
    requires |contents| <= capacity && k < capacity
    ensures var e := Timeline(contents, capacity)[k];
      e[SUM_CHANNEL] == (e[0] + e[1] + e[2] + e[3]) / 4.0
  {
  }

  /** Before the history wraps, the frames pushed into an empty history are
      retained unchanged and frame `s` sits in slot `s`. */
  lemma FillBeforeWrap(pushed: seq<Frame>, capacity: nat)
    requires |pushed| < capacity
    ensures Retained(pushed, capacity) == pushed
    ensures forall s :: 0 <= s < |pushed| ==>
      Timeline(pushed, capacity)[Age(s, |pushed|, capacity)] == Entry(pushed[s])
  {
  }

  /** Once at least `capacity` frames have been pushed, the timeline is exactly
      the last `capacity` frames in push order, with no empty slot. */
  lemma FullAfterWrap(pushed: seq<Frame>, capacity: nat)
    requires capacity <= |pushed|
    ensures |Retained(pushed, capacity)| == capacity
    ensures forall k :: 0 <= k < capacity ==>
      Timeline(Retained(pushed, capacity), capacity)[k] == Entry(pushed[|pushed| - capacity + k])
  {
  }

  /** The chronological view after `frames[..i]` were written one at a time:
      each frame drops the oldest slot and appends its own entry. */
  function Scrolled(h: seq<Slot>, frames: seq<Frame>, i: nat): (r: seq<Slot>)
    requires 0 < |h| && i <= |frames|
    ensures |r| == |h|
    decreases i
  {
    if i == 0 then h else Scrolled(h, frames, i - 1)[1..] + [Entry(frames[i - 1])]
  }

  /** The last step of a scroll, applied to a view already known. */
  lemma ScrolledFrom(h: seq<Slot>, frames: seq<Frame>, i: nat, prev: seq<Slot>, next: seq<Slot>)
    requires 0 < |h| && 0 < i <= |frames|
    requires Scrolled(h, frames, i - 1) == prev
    requires next == prev[1..] + [Entry(frames[i - 1])]
    ensures Scrolled(h, frames, i) == next
  {
  }

  /** Writing a batch of at most `|h|` frames shifts the view left by the batch
      length and appends the batch's entries: the slots the batch does not
      reach keep what they held, in the same order. */
  lemma {:induction false} ScrolledShift(h: seq<Slot>, frames: seq<Frame>, i: nat)
    requires 0 < |h| && i <= |frames| && i <= |h|
    ensures Scrolled(h, frames, i) == h[i..] + Entries(frames[..i])
    decreases i
  {
    if i == 0 {
      assert Entries(frames[..0]) == [];
    } else {
      var init := frames[..i - 1];
      ScrolledShift(h, frames, i - 1);
      assert frames[..i] == init + [frames[i - 1]];
      ShiftAppend(h, i, init, frames[i - 1]);
      ScrolledFrom(h, frames, i, h[i - 1..] + Entries(init), h[i..] + Entries(frames[..i]));
    }
  }

  lemma ShiftAppend(h: seq<Slot>, i: nat, init: seq<Frame>, f: Frame)
    requires 0 < i <= |h|
    ensures (h[i - 1..] + Entries(init))[1..] + [Entry(f)] == h[i..] + Entries(init + [f])
  {
    EntriesSnoc(init, f);
    DropFirst(h[i - 1..], Entries(init));
    assert h[i - 1..][1..] == h[i..];
  }

  /** One frame of a batch, in terms of the timeline: writing `frames[i - 1]`
      after `frames[..i - 1]` drops the oldest slot and appends the frame's
      entry. */
  lemma TimelineBatchStep(contents: seq<Frame>, frames: seq<Frame>, i: nat, capacity: nat)
    requires 0 < capacity && |contents| <= capacity && 0 < i <= |frames|
    ensures Timeline(Retained(contents + frames[..i], capacity), capacity)
         == Timeline(Retained(contents + frames[..i - 1], capacity), capacity)[1..] + [Entry(frames[i - 1])]
  {
    TimelineStep(Retained(contents + frames[..i - 1], capacity), frames[i - 1], capacity);
    RetainedPush(contents, frames, i - 1, capacity);
  }

  /** Scrolling the timeline of the retained frames by a batch gives the
      timeline of the frames retained after the batch. */
  lemma {:induction false} ScrolledTimeline(contents: seq<Frame>, frames: seq<Frame>, i: nat, capacity: nat)
    requires 0 < capacity && |contents| <= capacity && i <= |frames|
    ensures Scrolled(Timeline(contents, capacity), frames, i)
         == Timeline(Retained(contents + frames[..i], capacity), capacity)
    decreases i
  {
    if i == 0 {
      assert contents + frames[..0] == contents;
    } else {
      var prev := Timeline(Retained(contents + frames[..i - 1], capacity), capacity);
      ScrolledTimeline(contents, frames, i - 1, capacity);
      TimelineBatchStep(contents, frames, i, capacity);
      ScrolledFrom(Timeline(contents, capacity), frames, i, prev,
                   Timeline(Retained(contents + frames[..i], capacity), capacity));
    }
  }

  /** Scrolling uses only the first `i` frames of the batch. */
  lemma {:induction false} ScrolledPrefix(h: seq<Slot>, a: seq<Frame>, b: seq<Frame>, i: nat)
    requires 0 < |h| && i <= |a|
    ensures Scrolled(h, a + b, i) == Scrolled(h, a, i)
    decreases i
  {
    if i > 0 {
      ScrolledPrefix(h, a, b, i - 1);
      assert (a + b)[i - 1] == a[i - 1];
    }
  }

  /** The history given by `slots`, the count `count` and the write index
      `first` records `pushed`: the view is the empty one scrolled by every
      pushed frame, the count is the number of pushed frames up to the
      capacity, and the index has stepped once per pushed frame from slot 0. */
  ghost predicate RecordedState(slots: seq<Slot>, pushed: seq<Frame>, count: nat, first: nat, capacity: nat)
  {
    && 0 < capacity
    && slots == Scrolled(Timeline([], capacity), pushed, |pushed|)
    && count == (if |pushed| < capacity then |pushed| else capacity)
    && first == Advanced(0, |pushed|, capacity)
  }

  /** Scrolling by `a` and then by the first `n` frames of `b` is scrolling
      by both in one go. */
  lemma {:induction false} ScrolledConcat(h: seq<Slot>, a: seq<Frame>, b: seq<Frame>, n: nat)
    requires 0 < |h| && n <= |b|
    ensures Scrolled(Scrolled(h, a, |a|), b, n) == Scrolled(h, a + b[..n], |a| + n)
    decreases n
  {
    if n == 0 {
      assert a + b[..n] == a;
    } else {
      var init := a + b[..n - 1];
      ScrolledConcat(h, a, b, n - 1);
      assert a + b[..n] == init + [b[n - 1]];
      ScrolledPrefix(h, init, [b[n - 1]], |a| + n - 1);
      assert (a + b[..n])[|a| + n - 1] == b[n - 1];
    }
  }

  /** Stepping the index `i` times and then `j` times is stepping it `i + j` times. */
  lemma {:induction false} AdvancedConcat(start: nat, i: nat, j: nat, capacity: nat)
    requires start < capacity
    ensures Advanced(Advanced(start, i, capacity), j, capacity) == Advanced(start, i + j, capacity)
    decreases j
  {
    if j > 0 {
      AdvancedConcat(start, i, j - 1, capacity);
    }
  }

  /** A batch of frames: scrolling the view by the first `n` frames of the
      batch, growing the count by `n` up to the capacity and stepping the
      index `n` times keep the history a record of everything pushed. */
  lemma RecordedAfterBatch(slots: seq<Slot>, pushed: seq<Frame>, count: nat, first: nat,
                           frames: seq<Frame>, n: nat, capacity: nat)
    requires RecordedState(slots, pushed, count, first, capacity) && n <= |frames|
    ensures RecordedState(Scrolled(slots, frames, n), pushed + frames[..n],
                          if count + n < capacity then count + n else capacity,
                          Advanced(first, n, capacity), capacity)
  {
    ScrolledConcat(Timeline([], capacity), pushed, frames, n);
    AdvancedConcat(0, |pushed|, n, capacity);
  }

  /** The view recorded for everything pushed into an empty history is the
      timeline of the frames it retains. */
  lemma RecordedTimeline(pushed: seq<Frame>, capacity: nat)
    requires 0 < capacity
    ensures Scrolled(Timeline([], capacity), pushed, |pushed|) == Timeline(Retained(pushed, capacity), capacity)
  {
    ScrolledTimeline([], pushed, |pushed|, capacity);
    assert [] + pushed[..|pushed|] == pushed;
  }

  /** Before the history wraps, a record of `pushed` has its write index at
      `|pushed|`, pushed frame `s` in the slot of age `Age(s, |pushed|, _)`,
      and nothing but zeros in the slots from `|pushed|` on. */
  lemma RecordedBeforeWrap(slots: seq<Slot>, pushed: seq<Frame>, count: nat, first: nat, capacity: nat)
    requires RecordedState(slots, pushed, count, first, capacity) && |pushed| < capacity
    ensures first == |pushed|
    ensures forall s :: 0 <= s < |pushed| ==> slots[Age(s, first, capacity)] == Entry(pushed[s])
    ensures forall s :: |pushed| <= s < capacity ==> slots[Age(s, first, capacity)] == EMPTY_ENTRY
  {
    AdvancedFromZero(|pushed|, capacity);
    RecordedTimeline(pushed, capacity);
    FillBeforeWrap(pushed, capacity);
    assert slots == Timeline(pushed, capacity);
    forall s | |pushed| <= s < capacity
      ensures slots[Age(s, first, capacity)] == EMPTY_ENTRY
    {
      assert Age(s, first, capacity) == s - |pushed|;
    }
  }

  /** After the history wrapped, entry `k` of a record of `pushed` is the
      `k`-th of the last `capacity` pushed frames. */
  lemma RecordedAfterWrap(slots: seq<Slot>, pushed: seq<Frame>, count: nat, first: nat, capacity: nat)
    requires RecordedState(slots, pushed, count, first, capacity) && capacity <= |pushed|
    ensures forall k :: 0 <= k < capacity ==> slots[k] == Entry(pushed[|pushed| - capacity + k])
  {
    RecordedTimeline(pushed, capacity);
    FullAfterWrap(pushed, capacity);
  }

  /** In a record of any pushed frames, every entry's derived channel is the
      mean of its four raw channels. */
  lemma RecordedSumIsMean(slots: seq<Slot>, pushed: seq<Frame>, count: nat, first: nat, capacity: nat)
    requires RecordedState(slots, pushed, count, first, capacity)
    ensures forall k :: 0 <= k < capacity ==>
      slots[k][SUM_CHANNEL] == (slots[k][0] + slots[k][1] + slots[k][2] + slots[k][3]) / 4.0
  {
    RecordedTimeline(pushed, capacity);
    forall k | 0 <= k < capacity
      ensures slots[k][SUM_CHANNEL] == (slots[k][0] + slots[k][1] + slots[k][2] + slots[k][3]) / 4.0
    {
      TimelineSumIsMean(Retained(pushed, capacity), capacity, k);
    }
  }

  /** Position in the timeline of slot `s` when the oldest slot is `first`:
      the slots are read from `first` onwards, wrapping to 0. */
  function Age(s: int, first: int, capacity: int): (a: int)
    ensures 0 <= s < capacity && 0 <= first < capacity ==> 0 <= a < capacity
  {
    if s >= first then s - first else s + capacity - first
  }

  /** The write index after one frame: the next slot, wrapping to 0, so it
      stays a slot index. */
  function Next(first: nat, capacity: nat): (n: nat)
    ensures first < capacity ==> n < capacity
  {
    if first + 1 == capacity then 0 else first + 1
  }

  /** Advancing the write index makes the slot just written the newest one
      and every other slot one place older. */
  lemma AgeNext(s: nat, first: nat, capacity: nat)
    requires first < capacity && s < capacity
    ensures 0 <= Age(s, Next(first, capacity), capacity) < capacity
    ensures s == first ==> Age(s, Next(first, capacity), capacity) == capacity - 1
    ensures s != first ==> Age(s, Next(first, capacity), capacity) + 1 == Age(s, first, capacity)
  {
  }

  /** The write index after `i` frames written from index `start`. */
  function Advanced(start: nat, i: nat, capacity: nat): (first: nat)
    requires start < capacity
    ensures first < capacity
    decreases i
  {
    if i == 0 then start else Next(Advanced(start, i - 1, capacity), capacity)
  }

  /** Until the first wrap, the write index after `i` frames from slot 0 is `i`. */
  lemma {:induction false} AdvancedFromZero(i: nat, capacity: nat)
    requires i < capacity
    ensures Advanced(0, i, capacity) == i
  {
    if i > 0 {
      AdvancedFromZero(i - 1, capacity);
    }
  }

  /** The walk that starts at `first` and steps with `Next` visits, at step
      `i`, the slot of age `i`: reading from the write index onwards with
      wrap-around is reading in chronological order. */
  lemma {:induction false} AgeWalk(first: nat, i: nat, capacity: nat)
    requires first < capacity && i < capacity
    ensures Age(Advanced(first, i, capacity), first, capacity) == i
  {
    if i > 0 {
      AgeWalk(first, i - 1, capacity);
    }
  }

  /** Every slot is reached by the walk, at the step given by its age. */
  lemma AdvancedAge(s: nat, first: nat, capacity: nat)
    requires s < capacity && first < capacity
    ensures Advanced(first, Age(s, first, capacity), capacity) == s
  {
    AgeWalk(first, Age(s, first, capacity), capacity);
  }

  /** Stepping the write index `i` times is adding `i` modulo the capacity. */
  lemma {:induction false} AdvancedIsMod(start: nat, i: nat, capacity: nat)
    requires start < capacity
    ensures Advanced(start, i, capacity) == (start + i) % capacity
  {
    if i == 0 {
      ModUnique(start, capacity, 0, start);
    } else {
      AdvancedIsMod(start, i - 1, capacity);
      ModSuccessor(start + i - 1, capacity);
    }
  }

  lemma MulAtLeast(d: int, m: int)
    requires 1 <= d && 0 < m
    ensures d * m >= m
  {
    assert d * m == (d - 1) * m + m;
  }

  /** Euclidean remainder is unique: `q * m + r` with `0 <= r < m` leaves `r`. */
  lemma ModUnique(a: int, m: int, q: int, r: int)
    requires 0 < m && 0 <= r < m && a == q * m + r
    ensures a % m == r
  {
    var q', r' := a / m, a % m;
    assert a == q' * m + r';
    assert (q - q') * m == r' - r;
    if q > q' {
      MulAtLeast(q - q', m);
    } else if q < q' {
      assert (q' - q) * m == r - r';
      MulAtLeast(q' - q, m);
    }
  }

  /** `x % m` steps like the write index: up by one, back to 0 at `m`. */
  lemma ModSuccessor(x: int, m: int)
    requires 0 <= x && 0 < m
    ensures (x + 1) % m == if x % m + 1 == m then 0 else x % m + 1
  {
    var q, r := x / m, x % m;
    assert x == q * m + r;
    if r + 1 == m {
      assert x + 1 == (q + 1) * m + 0;
      ModUnique(x + 1, m, q + 1, 0);
    } else {
      ModUnique(x + 1, m, q, r + 1);
    }
  }
}
