/** The index arithmetic shared by the producer (`update`) and the consumer
    (`audio_callback`) in src/platform.rs, over a ring of AUDIO_SAMPLES_LEN
    interleaved samples with CHANNELS samples per frame.

    The source reduces indices with `% AUDIO_SAMPLES_LEN`; every such reduction here is
    of a value in [-LEN, 2 * LEN), and `Wrap` states once what it then is. */
module RingIndex {

  const AUDIO_SAMPLES_LEN: nat := 1024 * 4
  const CHANNELS: nat := 2

  /** A signed 16-bit sample. */
  newtype i16 = x: int | -0x8000 <= x < 0x8000

  /** A slot of the ring. */
  predicate InRing(p: int) {
    0 <= p < AUDIO_SAMPLES_LEN
  }

  /** What the source asserts of both indices: a frame boundary inside the ring. */
  predicate IsIndex(i: int) {
    InRing(i) && i % CHANNELS == 0
  }

  /** A reduction modulo the ring length of a value less than one ring away from it. */
  lemma Wrap(x: int)
    requires -(AUDIO_SAMPLES_LEN as int) <= x < 2 * AUDIO_SAMPLES_LEN
    ensures x % AUDIO_SAMPLES_LEN ==
      if x < 0 then x + AUDIO_SAMPLES_LEN
      else if x < AUDIO_SAMPLES_LEN then x
      else x - AUDIO_SAMPLES_LEN
  {
  }

  /** Cyclic distance from slot `from` forward to slot `to`. */
  function Distance(from: int, to: int): (d: nat)
    requires InRing(from) && InRing(to)
    ensures d < AUDIO_SAMPLES_LEN
    ensures d == (to - from) % AUDIO_SAMPLES_LEN
  {
    Wrap(to - from);
    if from <= to then to - from else to + AUDIO_SAMPLES_LEN - from
  }

  /** `samples_to_write`: the free space the producer may fill, one frame always held back.
      The intermediate values are typed `nat` because the source computes them in `usize`,
      which must not underflow. */
  function SamplesToWrite(w: nat, r: nat): (n: nat)
    requires IsIndex(w) && IsIndex(r)
    ensures n == (r - w - CHANNELS) % AUDIO_SAMPLES_LEN
    ensures n % CHANNELS == 0 && n <= AUDIO_SAMPLES_LEN - CHANNELS
  {
    Wrap(r - w - CHANNELS);
    if w >= r then
      var a: nat := r + AUDIO_SAMPLES_LEN - w;
      var b: nat := a - CHANNELS;
      Wrap(b);
      b % AUDIO_SAMPLES_LEN
    else
      var a: nat := r - w;
      a - CHANNELS
  }

  /** `available_samples`: the samples in flight from the read index up to the write index. */
  function AvailableSamples(w: nat, r: nat): (n: nat)
    requires IsIndex(w) && IsIndex(r)
    ensures n == Distance(r, w)
    ensures n % CHANNELS == 0 && n <= AUDIO_SAMPLES_LEN - CHANNELS
    ensures n + SamplesToWrite(w, r) == AUDIO_SAMPLES_LEN - CHANNELS
  {
    if w >= r then w - r else w + AUDIO_SAMPLES_LEN - r
  }

  /** Advancing an index by a whole number of frames, wrapping at the end of the ring. */
  function Advance(i: nat, n: nat): (j: nat)
    requires IsIndex(i) && n % CHANNELS == 0 && n < AUDIO_SAMPLES_LEN
    ensures j == if i + n < AUDIO_SAMPLES_LEN then i + n else i + n - AUDIO_SAMPLES_LEN
    ensures IsIndex(j) && Distance(i, j) == n
  {
    Wrap(i + n);
    (i + n) % AUDIO_SAMPLES_LEN
  }

  function Min(a: nat, b: nat): nat {
    if a <= b then a else b
  }

  /** `n` ring slots read in order from `start`, wrapping at the end of the ring. */
  function Window(ring: seq<i16>, start: nat, n: nat): (s: seq<i16>)
    requires |ring| == AUDIO_SAMPLES_LEN
    ensures |s| == n
    ensures forall k :: 0 <= k < n ==> s[k] == ring[(start + k) % AUDIO_SAMPLES_LEN]
  {
    seq(n, k requires 0 <= k < n => ring[(start + k) % AUDIO_SAMPLES_LEN])
  }

  /** The slot `i` places after `start` lies `i` places after it. */
  lemma DistanceOfAdvance(start: nat, i: nat)
    requires start < AUDIO_SAMPLES_LEN && i < AUDIO_SAMPLES_LEN
    ensures Distance(start, (start + i) % AUDIO_SAMPLES_LEN) == i
  {
    Wrap(start + i);
  }

  /** Distinct slots lie at distinct distances from any start. */
  lemma DistanceInjective(start: int, p: int, q: int)
    requires InRing(start) && InRing(p) && InRing(q)
    requires Distance(start, p) == Distance(start, q)
    ensures p == q
  {
  }

  /** Stepping the copy index `(start + i) % LEN` by one slot, as `(index + 1) % LEN` does. */
  lemma NextSlot(start: nat, i: nat)
    requires start < AUDIO_SAMPLES_LEN && i < AUDIO_SAMPLES_LEN
    ensures ((start + i) % AUDIO_SAMPLES_LEN + 1) % AUDIO_SAMPLES_LEN == (start + i + 1) % AUDIO_SAMPLES_LEN
  {
    Wrap(start + i);
    Wrap(start + i + 1);
    Wrap((start + i) % AUDIO_SAMPLES_LEN + 1);
  }

  /** The slot `i` past `start` is the only slot at that distance. */
  lemma OnlySlotAtDistance(start: nat, i: nat)
    requires start < AUDIO_SAMPLES_LEN && i < AUDIO_SAMPLES_LEN
    ensures forall p :: InRing(p) && Distance(start, p) == i ==> p == (start + i) % AUDIO_SAMPLES_LEN
  {
    DistanceOfAdvance(start, i);
    forall p | InRing(p) && Distance(start, p) == i
      ensures p == (start + i) % AUDIO_SAMPLES_LEN
    {
      DistanceInjective(start, p, (start + i) % AUDIO_SAMPLES_LEN);
    }
  }

  /** Within a frame no wrap is needed: the second sample of the frame that starts `j`
      slots after index `r` is the slot right after the first one, and the next frame
      starts at a frame boundary again. */
  lemma NextSlotsOfFrame(r: nat, j: nat)
    requires IsIndex(r) && j % CHANNELS == 0 && j < AUDIO_SAMPLES_LEN
    ensures IsIndex((r + j) % AUDIO_SAMPLES_LEN)
    ensures (r + j + 1) % AUDIO_SAMPLES_LEN == (r + j) % AUDIO_SAMPLES_LEN + 1
    ensures (r + j + CHANNELS) % AUDIO_SAMPLES_LEN == ((r + j) % AUDIO_SAMPLES_LEN + CHANNELS) % AUDIO_SAMPLES_LEN
    ensures IsIndex((r + j + CHANNELS) % AUDIO_SAMPLES_LEN)
  {
    Wrap(r + j);
    Wrap(r + j + 1);
    Wrap(r + j + CHANNELS);
    Wrap((r + j) % AUDIO_SAMPLES_LEN + CHANNELS);
  }

  /** Dropping `i` samples and then `j` more drops `i + j`: two consumer reads in a row
      leave what one read of both amounts would. */
  lemma DropTwice(a: seq<i16>, i: nat, j: nat)
    requires i + j <= |a|
    ensures a[i..][j..] == a[i + j..]
  {
  }

  /** Skipping the first `k` samples of a window is the window that starts `k` slots later. */
  lemma WindowDrop(ring: seq<i16>, start: nat, n: nat, k: nat)
    requires |ring| == AUDIO_SAMPLES_LEN && start < AUDIO_SAMPLES_LEN && k <= n <= AUDIO_SAMPLES_LEN
    ensures Window(ring, (start + k) % AUDIO_SAMPLES_LEN, n - k) == Window(ring, start, n)[k..]
  {
    Wrap(start + k);
    var dropped, whole := Window(ring, (start + k) % AUDIO_SAMPLES_LEN, n - k), Window(ring, start, n);
    forall j | 0 <= j < n - k
      ensures dropped[j] == whole[k + j]
    {
      Wrap((start + k) % AUDIO_SAMPLES_LEN + j);
      Wrap(start + k + j);
    }
  }

  /** A window grows by the slots that follow it. */
  lemma WindowExtend(ring: seq<i16>, start: nat, n: nat, more: seq<i16>)
    requires |ring| == AUDIO_SAMPLES_LEN && start < AUDIO_SAMPLES_LEN && n + |more| <= AUDIO_SAMPLES_LEN
    requires forall i :: 0 <= i < |more| ==> ring[((start + n) % AUDIO_SAMPLES_LEN + i) % AUDIO_SAMPLES_LEN] == more[i]
    ensures Window(ring, start, n + |more|) == Window(ring, start, n) + more
  {
    Wrap(start + n);
    forall i | 0 <= i < |more|
      ensures Window(ring, start, n + |more|)[n + i] == more[i]
    {
      Wrap((start + n) % AUDIO_SAMPLES_LEN + i);
      Wrap(start + n + i);
    }
  }

  /** Two rings that agree on the slots of a window have the same window. */
  lemma WindowAgree(a: seq<i16>, b: seq<i16>, start: nat, n: nat)
    requires |a| == AUDIO_SAMPLES_LEN && |b| == AUDIO_SAMPLES_LEN
    requires start < AUDIO_SAMPLES_LEN && n <= AUDIO_SAMPLES_LEN
    requires forall p :: InRing(p) && Distance(start, p) < n ==> a[p] == b[p]
    ensures Window(a, start, n) == Window(b, start, n)
  {
    forall k | 0 <= k < n
      ensures Window(a, start, n)[k] == Window(b, start, n)[k]
    {
      DistanceOfAdvance(start, k);
    }
  }

  /** The producer's view taken at the load on line 452: both halves of the word and the
      free space computed from them. */
  datatype Snapshot = Snapshot(write: nat, read: nat, count: nat)

  /** A snapshot is still current while the write half is the one it loaded and the
      consumer has advanced the read half by at most what was in flight at the load. */
  predicate Current(s: Snapshot, w: nat, r: nat) {
    IsIndex(s.write) && IsIndex(s.read) && IsIndex(w) && IsIndex(r)
    && s.count == SamplesToWrite(s.write, s.read)
    && w == s.write
    && Distance(s.read, r) <= AvailableSamples(s.write, s.read)
  }

  /** Whether ring slot `p` is one of the `s.count` slots the producer fills from its snapshot. */
  predicate Produced(s: Snapshot, p: int) {
    InRing(s.write) && InRing(p) && Distance(s.write, p) < s.count
  }

  /** The read index lies on the cyclic stretch from the snapshot's read index to the write
      index: the distance read so far and the distance still in flight add up to what was in
      flight at the load. */
  lemma BetweenSnapshotAndWrite(s: Snapshot, r: nat)
    requires Current(s, s.write, r)
    ensures Distance(s.read, r) + AvailableSamples(s.write, r) == AvailableSamples(s.write, s.read)
  {
  }

  /** A consumer step that reads `k` of the samples in flight keeps a pending producer
      snapshot current, and the read index has then moved `k` further from the snapshot. */
  lemma ConsumerStepKeepsSnapshot(s: Snapshot, r: nat, k: nat)
    requires Current(s, s.write, r)
    requires k % CHANNELS == 0 && k <= AvailableSamples(s.write, r)
    ensures Current(s, s.write, Advance(r, k))
    ensures Distance(s.read, Advance(r, k)) == Distance(s.read, r) + k
  {
    BetweenSnapshotAndWrite(s, r);
  }

  /** Reading `k` of the samples in flight leaves `k` fewer in flight. */
  lemma AvailableAfterRead(w: nat, r: nat, k: nat)
    requires IsIndex(w) && IsIndex(r) && k % CHANNELS == 0 && k <= AvailableSamples(w, r)
    ensures AvailableSamples(w, Advance(r, k)) == AvailableSamples(w, r) - k
  {
  }

  /** While a snapshot is current, the slots the producer fills are disjoint from the
      samples in flight: the producer never overwrites a sample the consumer has yet to read. */
  lemma ProducedSlotsAreFree(s: Snapshot, r: nat, k: nat)
    requires Current(s, s.write, r)
    requires k < AvailableSamples(s.write, r)
    ensures !Produced(s, (r + k) % AUDIO_SAMPLES_LEN)
  {
    Wrap(r + k);
    BetweenSnapshotAndWrite(s, r);
  }

  /** Publishing from a current snapshot: the copied samples follow the ones still in
      flight, the in-flight count grows by the copied count, and the free space left is
      exactly what the consumer drained since the load. */
  lemma PublishArithmetic(s: Snapshot, r: nat)
    requires Current(s, s.write, r)
    ensures (r + AvailableSamples(s.write, r)) % AUDIO_SAMPLES_LEN == s.write
    ensures AvailableSamples(Advance(s.write, s.count), r) == AvailableSamples(s.write, r) + s.count
    ensures SamplesToWrite(Advance(s.write, s.count), r) == Distance(s.read, r)
  {
    BetweenSnapshotAndWrite(s, r);
    Wrap(r + AvailableSamples(s.write, r));
  }

  /** The slots the producer filled from its snapshot, listed by distance, are the
      slots `write + i` listed by `i`. */
  lemma ProducedByOffset(s: Snapshot, ring: seq<i16>, scratch: seq<i16>)
    requires IsIndex(s.write) && s.count <= |scratch| && |ring| == AUDIO_SAMPLES_LEN && s.count <= AUDIO_SAMPLES_LEN
    requires forall p :: Produced(s, p) ==> ring[p] == scratch[Distance(s.write, p)]
    ensures forall i :: 0 <= i < s.count ==> ring[(s.write + i) % AUDIO_SAMPLES_LEN] == scratch[i]
  {
    forall i | 0 <= i < s.count
      ensures ring[(s.write + i) % AUDIO_SAMPLES_LEN] == scratch[i]
    {
      DistanceOfAdvance(s.write, i);
    }
  }

  /** Changing only the producer's slots of a current snapshot keeps the samples in flight. */
  lemma ProducerKeepsWindow(s: Snapshot, r: nat, before: seq<i16>, after: seq<i16>)
    requires Current(s, s.write, r)
    requires |before| == AUDIO_SAMPLES_LEN && |after| == AUDIO_SAMPLES_LEN
    requires forall p :: InRing(p) && !Produced(s, p) ==> after[p] == before[p]
    ensures Window(after, r, AvailableSamples(s.write, r)) == Window(before, r, AvailableSamples(s.write, r))
  {
    var inFlight := AvailableSamples(s.write, r);
    forall p | InRing(p) && Distance(r, p) < inFlight
      ensures after[p] == before[p]
    {
      var k := Distance(r, p);
      Wrap(r + k);
      assert p == (r + k) % AUDIO_SAMPLES_LEN;
      ProducedSlotsAreFree(s, r, k);
    }
    WindowAgree(after, before, r, inFlight);
  }

  /** A buffer whose first `k` samples were read slot by slot from `r` on holds the first
      `k` samples of the window from `r`. */
  lemma ReadPrefix(ring: seq<i16>, r: nat, n: nat, k: nat, out: seq<i16>)
    requires |ring| == AUDIO_SAMPLES_LEN && k <= n && k <= |out|
    requires forall j :: 0 <= j < k ==> out[j] == ring[(r + j) % AUDIO_SAMPLES_LEN]
    ensures out[..k] == Window(ring, r, n)[..k]
  {
  }
}
