/** The lock-free single-producer, single-consumer audio bridge of src/platform.rs:
    the ring `AUDIO_SAMPLES`, the game's scratch buffer `GAME_SAMPLES`, and the packed
    index word `AUDIO_SAMPLES_INDICES`, with the producer side of `update` and the
    consumer `audio_callback`.

    Each `fetch_update` is one atomic step.  The producer is split into the steps of
    `update` (load, game, copy, publish) so that consumer calls may run between them;
    `Update` runs the steps back to back. */
module AudioBridge {
  import opened RingIndex
  import opened PackedIndex
  import opened Wrappers

  /** What the render callback does: it returns its status code, with the number of
      frames reported in the underrun log line if it logged one; or it panics on the
      `assert!(len > 0)` of line 518. */
  datatype CallbackOutcome = Returned(status: int, underrun: Option<nat>) | Panicked

  class AudioBridge {
    /** AUDIO_SAMPLES */
    const ring: array<i16>
    /** GAME_SAMPLES */
    const scratch: array<i16>
    /** AUDIO_SAMPLES_INDICES */
    var indices: Word

    ghost predicate Valid()
      reads this
    {
      ring.Length == AUDIO_SAMPLES_LEN && scratch.Length == AUDIO_SAMPLES_LEN && ring != scratch
      && IsIndex(WriteIndex()) && IsIndex(ReadIndex())
    }

    function WriteIndex(): nat
      reads this
    {
      WriteHalf(indices)
    }

    function ReadIndex(): nat
      reads this
    {
      ReadHalf(indices)
    }

    /** The samples in flight, oldest first: what the consumer will read next. */
    ghost function InFlight(): seq<i16>
      reads this, ring
      requires Valid()
    {
      Window(ring[..], ReadIndex(), AvailableSamples(WriteIndex(), ReadIndex()))
    }

    /** The producer's snapshot `s` is still current. */
    ghost predicate Pending(s: Snapshot)
      reads this
    {
      Valid() && Current(s, WriteIndex(), ReadIndex())
    }

    /** The static initialisers: both buffers zero, write index 2, read index 0, so one
        silent frame is in flight at start. */
    constructor ()
      ensures Valid() && fresh(ring) && fresh(scratch)
      ensures indices == INITIAL_INDICES
      ensures WriteIndex() == CHANNELS && ReadIndex() == 0
      ensures InFlight() == [0, 0]
      ensures forall p :: 0 <= p < AUDIO_SAMPLES_LEN ==> ring[p] == 0 && scratch[p] == 0
    {
      ring := new i16[AUDIO_SAMPLES_LEN](_ => 0);
      scratch := new i16[AUDIO_SAMPLES_LEN](_ => 0);
      indices := INITIAL_INDICES;
      new;
      InitialIndices();
    }

    /** Lines 452-462: load the word once, split it, check both halves, and compute the
        free space.  The free space and the samples in flight fill the ring but for one frame. */
    method LoadForUpdate() returns (s: Snapshot)
      requires Valid()
      ensures s.write == WriteIndex() && s.read == ReadIndex()
      ensures s.count + |InFlight()| == AUDIO_SAMPLES_LEN - CHANNELS
      ensures Pending(s) && Distance(s.read, ReadIndex()) == 0
    {
      var current := indices;
      var writeIndex := WriteHalf(current);
      assert writeIndex % CHANNELS == 0;
      var wrappedReadIndex := ReadHalf(current);
      assert wrappedReadIndex % CHANNELS == 0;
      var samplesToWrite := SamplesToWrite(writeIndex, wrappedReadIndex);
      s := Snapshot(writeIndex, wrappedReadIndex, samplesToWrite);
    }

    /** Line 473: the game is handed `GAME_SAMPLES[..samples_to_write]` and may overwrite
        any of it; `game` gives the slice's new contents from its old ones.  Nothing
        outside the slice changes. */
    method RunGame(s: Snapshot, game: seq<i16> -> seq<i16>)
      requires Pending(s)
      requires forall x :: |game(x)| == |x|
      modifies scratch
      ensures scratch[..s.count] == game(old(scratch[..s.count]))
      ensures scratch[s.count..] == old(scratch[s.count..])
    {
      var produced := game(scratch[..s.count]);
      forall i | 0 <= i < s.count {
        scratch[i] := produced[i];
      }
    }

    /** Lines 479-483: copy the game's samples into the ring from the snapshot's write
        index on, wrapping at the end.  Only the slots the snapshot reserved change, so
        the samples in flight are untouched even if the consumer ran since the load. */
    method CopyToRing(s: Snapshot)
      requires Pending(s)
      modifies ring
      ensures forall i :: 0 <= i < s.count ==> ring[(s.write + i) % AUDIO_SAMPLES_LEN] == scratch[i]
      ensures forall p :: InRing(p) && !Produced(s, p) ==> ring[p] == old(ring[p])
      ensures InFlight() == old(InFlight())
    {
      ghost var before := ring[..];
      var index := s.write;
      for i := 0 to s.count
        invariant index == (s.write + i) % AUDIO_SAMPLES_LEN
        invariant forall p :: InRing(p) && Distance(s.write, p) < i ==> ring[p] == scratch[Distance(s.write, p)]
        invariant forall p :: InRing(p) && Distance(s.write, p) >= i ==> ring[p] == before[p]
      {
        DistanceOfAdvance(s.write, i);
        OnlySlotAtDistance(s.write, i);
        ring[index] := scratch[i];
        NextSlot(s.write, i);
        index := (index + 1) % AUDIO_SAMPLES_LEN;
      }
      ProducedByOffset(s, ring[..], scratch[..]);
      ProducerKeepsWindow(s, ReadIndex(), before, ring[..]);
    }

    /** Lines 486-491: publish the new write half, keeping the read half that is in the
        word now, not the one loaded.  The copied samples join the samples in flight, and
        the ring is then full except for what the consumer drained since the load. */
    method PublishWrite(s: Snapshot)
      requires Pending(s)
      requires forall i :: 0 <= i < s.count ==> ring[(s.write + i) % AUDIO_SAMPLES_LEN] == scratch[i]
      modifies this`indices
      ensures Valid()
      ensures ReadIndex() == old(ReadIndex())
      ensures WriteIndex() == Advance(s.write, s.count)
      ensures InFlight() == old(InFlight()) + scratch[..s.count]
      ensures SamplesToWrite(WriteIndex(), ReadIndex()) == Distance(s.read, ReadIndex())
    {
      var current := indices;
      var currentReadIndex := ReadHalf(current);
      var newWriteIndex := (s.write + s.count) % AUDIO_SAMPLES_LEN;
      indices := Pack(newWriteIndex, currentReadIndex);
      PublishArithmetic(s, currentReadIndex);
      WindowExtend(ring[..], currentReadIndex, AvailableSamples(s.write, currentReadIndex), scratch[..s.count]);
    }

    /** Lines 452-491 with no consumer step in between: the game's samples are appended
        to the samples in flight and the ring is left full. */
    method Update(game: seq<i16> -> seq<i16>)
      requires Valid()
      requires forall x :: |game(x)| == |x|
      modifies this`indices, ring, scratch
      ensures Valid()
      ensures ReadIndex() == old(ReadIndex())
      ensures var n := SamplesToWrite(old(WriteIndex()), old(ReadIndex()));
        InFlight() == old(InFlight()) + game(old(scratch[..n]))
      ensures SamplesToWrite(WriteIndex(), ReadIndex()) == 0
    {
      var s := LoadForUpdate();
      RunGame(s, game);
      CopyToRing(s);
      PublishWrite(s);
    }

    /** Lines 452-491 with a consumer call after the load and another after the copy:
        the consumer's reads drop a prefix of the samples in flight, and the game's
        samples still land right after the ones left, wherever the consumer got to. */
    method UpdateWithConsumerSteps(game: seq<i16> -> seq<i16>, frames1: nat, data1: array<i16>,
                                   frames2: nat, data2: array<i16>)
      returns (outcome1: CallbackOutcome, outcome2: CallbackOutcome)
      requires Valid()
      requires forall x :: |game(x)| == |x|
      requires frames1 < HALF && frames2 < HALF
      requires data1 != ring && data1 != scratch && data1.Length >= frames1 * CHANNELS
      requires data2 != ring && data2 != scratch && data2.Length >= frames2 * CHANNELS
      modifies this`indices, ring, scratch, data1, data2
      ensures Valid()
      ensures WriteIndex() == Advance(old(WriteIndex()), SamplesToWrite(old(WriteIndex()), old(ReadIndex())))
      ensures var n := SamplesToWrite(old(WriteIndex()), old(ReadIndex()));
        var k := Distance(old(ReadIndex()), ReadIndex());
        && k <= |old(InFlight())|
        && InFlight() == old(InFlight())[k..] + game(old(scratch[..n]))
      ensures SamplesToWrite(WriteIndex(), ReadIndex()) == Distance(old(ReadIndex()), ReadIndex())
    {
      ghost var produced := game(scratch[..SamplesToWrite(WriteIndex(), ReadIndex())]);
      var s := LoadForUpdate();
      ghost var loaded := InFlight();
      outcome1 := CallbackDuringUpdate(s, loaded, frames1, data1);
      RunGame(s, game);
      CopyToRing(s);
      outcome2 := CallbackDuringUpdate(s, loaded, frames2, data2);
      PublishWrite(s);
    }

    /** Lines 502-562 while the producer holds snapshot `s`, whose load saw the samples
        `loaded` in flight: the snapshot stays current, and what is in flight is still
        `loaded` less the samples read since the load. */
    method CallbackDuringUpdate(s: Snapshot, ghost loaded: seq<i16>, frames: nat, data: array<i16>)
      returns (outcome: CallbackOutcome)
      requires Pending(s)
      requires Distance(s.read, ReadIndex()) <= |loaded| && InFlight() == loaded[Distance(s.read, ReadIndex())..]
      requires frames < HALF
      requires data != ring && data != scratch && data.Length >= frames * CHANNELS
      modifies this`indices, data
      ensures Pending(s)
      ensures Distance(s.read, ReadIndex()) <= |loaded| && InFlight() == loaded[Distance(s.read, ReadIndex())..]
    {
      ghost var r := ReadIndex();
      outcome := AudioCallback(frames, data);
      if data.Length > 0 {
        var k := Min(|old(InFlight())|, frames * CHANNELS);
        ConsumerStepKeepsSnapshot(s, r, k);
        DropTwice(loaded, Distance(s.read, r), k);
      }
    }

    /** Lines 502-562: read `min(available, frames * CHANNELS)` samples into `data` in
        order, fill the rest of the requested frames with silence and log the underrun,
        then publish the new read half, keeping the write half that is in the word now. */
    method AudioCallback(frames: nat, data: array<i16>) returns (outcome: CallbackOutcome)
      requires Valid()
      requires frames < HALF
      requires data != ring && data != scratch
      requires data.Length >= frames * CHANNELS
      modifies this`indices, data
      ensures Valid()
      ensures data.Length == 0 ==>
        outcome == Panicked && indices == old(indices) && data[..] == old(data[..])
      ensures data.Length > 0 ==>
        var k := Min(|old(InFlight())|, frames * CHANNELS);
        && outcome == Returned(0, if k / CHANNELS < frames then Some(frames - k / CHANNELS) else None)
        && data[..k] == old(InFlight())[..k]
        && (forall j :: k <= j < frames * CHANNELS ==> data[j] == 0)
        && data[frames * CHANNELS..] == old(data[frames * CHANNELS..])
        && WriteIndex() == old(WriteIndex())
        && ReadIndex() == Advance(old(ReadIndex()), k)
        && InFlight() == old(InFlight())[k..]
      ensures forall s :: old(Pending(s)) ==> Pending(s)
    {
      if data.Length == 0 {
        return Panicked;
      }
      var current := indices;
      var wrappedWriteIndex := WriteHalf(current);
      assert wrappedWriteIndex % CHANNELS == 0;
      var readIndex := ReadHalf(current);
      assert readIndex % CHANNELS == 0;

      var availableSamples := AvailableSamples(wrappedWriteIndex, readIndex);
      var samplesNeeded := frames * CHANNELS;
      var samplesToRead := Min(availableSamples, samplesNeeded);
      var framesToRead := samplesToRead / CHANNELS;

      ReadFrames(readIndex, framesToRead, data);

      var underrun := None;
      if framesToRead < frames {
        underrun := Some(frames - framesToRead);
        FillSilence(framesToRead, frames, data);
      }

      ReadPrefix(ring[..], readIndex, availableSamples, samplesToRead, data[..]);
      AvailableAfterRead(wrappedWriteIndex, readIndex, samplesToRead);
      WindowDrop(ring[..], readIndex, availableSamples, samplesToRead);
      var currentWriteIndex := WriteHalf(indices);
      var newReadIndex := (readIndex + samplesToRead) % AUDIO_SAMPLES_LEN;
      indices := Pack(currentWriteIndex, newReadIndex);
      forall s | Current(s, wrappedWriteIndex, readIndex)
        ensures Current(s, WriteIndex(), ReadIndex())
      {
        ConsumerStepKeepsSnapshot(s, readIndex, samplesToRead);
      }
      outcome := Returned(0, underrun);
    }

    /** Lines 536-542: copy `frames` whole frames from the ring, starting at index `r`,
        into the front of `data`, wrapping at the end of the ring. */
    method ReadFrames(r: nat, frames: nat, data: array<i16>)
      requires Valid() && IsIndex(r) && frames * CHANNELS < AUDIO_SAMPLES_LEN
      requires data != ring && data.Length >= frames * CHANNELS
      modifies data
      ensures forall j :: 0 <= j < frames * CHANNELS ==> data[j] == ring[(r + j) % AUDIO_SAMPLES_LEN]
      ensures forall j :: frames * CHANNELS <= j < data.Length ==> data[j] == old(data[j])
    {
      var index := r;
      for f := 0 to frames
        invariant IsIndex(index) && index == (r + f * CHANNELS) % AUDIO_SAMPLES_LEN
        invariant forall j :: 0 <= j < f * CHANNELS ==> data[j] == ring[(r + j) % AUDIO_SAMPLES_LEN]
        invariant forall j :: f * CHANNELS <= j < data.Length ==> data[j] == old(data[j])
      {
        var n := f * CHANNELS;
        assert (f + 1) * CHANNELS == n + CHANNELS <= frames * CHANNELS;
        NextSlotsOfFrame(r, n);
        data[n] := ring[index];
        data[n + 1] := ring[index + 1];
        index := (index + CHANNELS) % AUDIO_SAMPLES_LEN;
      }
    }

    /** Lines 544-551: silence frames `from` up to `to` of `data`. */
    method FillSilence(from: nat, to: nat, data: array<i16>)
      requires from <= to && data.Length >= to * CHANNELS
      modifies data
      ensures forall j :: from * CHANNELS <= j < to * CHANNELS ==> data[j] == 0
      ensures forall j :: 0 <= j < from * CHANNELS || to * CHANNELS <= j < data.Length ==> data[j] == old(data[j])
    {
      for i := from to to
        invariant forall j :: from * CHANNELS <= j < i * CHANNELS ==> data[j] == 0
        invariant forall j :: 0 <= j < from * CHANNELS || i * CHANNELS <= j < data.Length ==> data[j] == old(data[j])
      {
        data[i * CHANNELS] := 0;
        data[i * CHANNELS + 1] := 0;
      }
    }
  }
}
