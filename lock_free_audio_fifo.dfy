/**
 * The single-producer / single-consumer ring buffer that carries interleaved
 * samples from the audio thread to the disk thread (Core/AudioEngine/LockFreeAudioFIFO.h).
 *
 * The ring has `bufferSize` slots and holds at most `bufferSize - 1` samples:
 * one slot always stays empty so that "full" and "empty" are told apart by the
 * two pointers alone. The atomics and memory orders are not modelled; each
 * call is one atomic step.
 */
module LockFreeAudioFifo {

  /** A position `x` in `[0, 2n)` folded back into `[0, n)`. */
  function Wrap(x: int, n: int): (r: int)
    requires 0 <= x < 2 * n
    ensures 0 <= r < n
    ensures r == x || r == x - n
  {
    if x < n then x else x - n
  }

  /** C++ `%` on the non-negative operands the ring uses is a single fold. */
  lemma ModAsWrap(x: int, n: int)
    requires 0 <= x < 2 * n
    ensures x % n == Wrap(x, n)
  {
    if x < n {
      assert x == n * 0 + x;
    } else {
      assert x == n * 1 + (x - n);
    }
  }

  /** `(p + 1) % bufferSize`: the slot after `p`. */
  function Advance(p: int, n: int): (q: int)
    requires 0 <= p < n
    ensures q == Wrap(p + 1, n)
  {
    ModAsWrap(p + 1, n);
    (p + 1) % n
  }

  /** The number of steps from slot `r` forward around the ring to slot `w`. */
  function Distance(r: int, w: int, n: int): (d: int)
    requires 0 <= w < n && 0 <= r < n
    ensures 0 <= d < n
    ensures Wrap(r + d, n) == w
  {
    Wrap(w - r + n, n)
  }

  /** Walking `d` slots forward from `r` is a walk of distance `d`. */
  lemma DistanceOf(r: int, d: int, n: int)
    requires 0 <= r < n && 0 <= d < n
    ensures Distance(r, Wrap(r + d, n), n) == d
  {
  }

  /** Walking `a` slots and then `c` more is walking `a + c` slots. */
  lemma WrapShift(r: int, a: int, c: int, n: int)
    requires 0 <= r < n && 0 <= a && 0 <= c && a + c < n
    ensures Wrap(Wrap(r + a, n) + c, n) == Wrap(r + a + c, n)
  {
  }

  /** `(writePointer - readPointer + bufferSize) % bufferSize`: samples waiting to be read. */
  function Available(w: int, r: int, n: int): int
    requires 0 <= w < n && 0 <= r < n
  {
    (w - r + n) % n
  }

  /** `(readPointer - writePointer - 1 + bufferSize) % bufferSize`: slots a write may fill. */
  function FreeSpace(w: int, r: int, n: int): int
    requires 0 <= w < n && 0 <= r < n
  {
    (r - w - 1 + n) % n
  }

  /** The stored samples and the free slots always add up to one less than the ring size. */
  lemma RingAccounting(w: int, r: int, n: int)
    requires 0 <= w < n && 0 <= r < n
    ensures Available(w, r, n) == Distance(r, w, n)
    ensures FreeSpace(w, r, n) == n - 1 - Distance(r, w, n)
    ensures Available(w, r, n) == 0 <==> w == r
    ensures FreeSpace(w, r, n) == 0 <==> Wrap(w + 1, n) == r
  {
    ModAsWrap(w - r + n, n);
    ModAsWrap(r - w - 1 + n, n);
  }

  /**
   * How many samples a `write` or `read` moves: nothing when there is no room
   * (or nothing to read), otherwise `std::min(numSamples, room)`.
   */
  function Transfer(room: int, numSamples: int): (k: int)
    ensures k <= room
    ensures room > 0 ==> k <= numSamples
    ensures room > 0 && numSamples >= 0 ==> k >= 0
    ensures room == 0 ==> k == 0
    ensures room > 0 ==> (k == numSamples || k == room)
  {
    if room == 0 then 0 else if numSamples < room then numSamples else room
  }

  /** `s` sits in `slots` in order, starting at slot `r` and wrapping around the end. */
  ghost predicate Stored<T>(s: seq<T>, slots: seq<T>, r: int) {
    && 0 <= r < |slots|
    && |s| < |slots|
    && forall i :: 0 <= i < |s| ==> s[i] == slots[Wrap(r + i, |slots|)]
  }

  /** Writing the next free slot extends the stored run by one sample. */
  lemma StoredAppend<T>(s: seq<T>, slots: seq<T>, r: int, x: T)
    requires Stored(s, slots, r) && |s| + 1 < |slots|
    ensures Stored(s + [x], slots[Wrap(r + |s|, |slots|) := x], r)
  {
    var t := slots[Wrap(r + |s|, |slots|) := x];
    forall i | 0 <= i < |s| + 1
      ensures (s + [x])[i] == t[Wrap(r + i, |slots|)]
    {
      if i < |s| {
        assert (s + [x])[i] == s[i];
      }
    }
  }

  /** Consuming the first `k` samples leaves the rest stored from `k` slots later. */
  lemma StoredDrop<T>(s: seq<T>, slots: seq<T>, r: int, k: int)
    requires Stored(s, slots, r) && 0 <= k <= |s|
    ensures Stored(s[k..], slots, Wrap(r + k, |slots|))
  {
    var n := |slots|;
    forall i | 0 <= i < |s| - k
      ensures s[k..][i] == slots[Wrap(Wrap(r + k, n) + i, n)]
    {
      WrapShift(r, k, i, n);
      assert s[k..][i] == s[k + i];
    }
  }

  class Fifo<T> {
    const buffer: array<T>
    const bufferSize: int
    var writePointer: int
    var readPointer: int
    /** The samples waiting to be read, oldest first. */
    ghost var Contents: seq<T>

    ghost predicate Valid()
      reads this, buffer
    {
      && bufferSize == buffer.Length && bufferSize > 0
      && 0 <= writePointer < bufferSize
      && 0 <= readPointer < bufferSize
      && |Contents| == Distance(readPointer, writePointer, bufferSize)
      && Stored(Contents, buffer[..], readPointer)
    }

    /** `LockFreeAudioFIFO(size)`; `blank` is the value the slots start with (`T{}`). */
    constructor (size: int, blank: T)
      requires size > 0
      ensures Valid() && fresh(buffer)
      ensures bufferSize == size && Contents == []
      ensures writePointer == 0 && readPointer == 0
    {
      buffer := new T[size](_ => blank);
      bufferSize := size;
      writePointer := 0;
      readPointer := 0;
      Contents := [];
      new;
      ModAsWrap(size, size);
    }

    /** `getNumAvailableSamples()`: the number of samples a read could return. */
    function GetNumAvailableSamples(): (n: int)
      reads this, buffer
      requires Valid()
      ensures n == |Contents|
      ensures 0 <= n < bufferSize
    {
      RingAccounting(writePointer, readPointer, bufferSize);
      (writePointer - readPointer + bufferSize) % bufferSize
    }

    /** `getFreeSpace()`: the number of samples a write could accept. */
    function GetFreeSpace(): (n: int)
      reads this, buffer
      requires Valid()
      ensures n == bufferSize - 1 - |Contents|
      ensures n == 0 <==> |Contents| == bufferSize - 1
    {
      RingAccounting(writePointer, readPointer, bufferSize);
      (readPointer - writePointer - 1 + bufferSize) % bufferSize
    }

    /**
     * `write(data, numSamples)`: appends as many of the first `numSamples`
     * samples of `data` as fit and returns how many that was. A negative
     * `numSamples` is passed through `std::min` unchanged and moves nothing.
     */
    method Write(data: seq<T>, numSamples: int) returns (samplesWritten: int)
      requires Valid()
      requires numSamples <= |data|
      modifies this`writePointer, this`Contents, buffer
      ensures Valid()
      ensures samplesWritten == Transfer(bufferSize - 1 - |old(Contents)|, numSamples)
      ensures Contents == old(Contents) + (if samplesWritten > 0 then data[..samplesWritten] else [])
      ensures readPointer == old(readPointer)
    {
      var currentWritePointer := writePointer;
      var currentReadPointer := readPointer;
      var freeSpace := FreeSpace(currentWritePointer, currentReadPointer, bufferSize);
      RingAccounting(currentWritePointer, currentReadPointer, bufferSize);
      if freeSpace == 0 {
        return 0;
      }
      samplesWritten := if numSamples < freeSpace then numSamples else freeSpace;
      if samplesWritten > 0 {
        CopyIn(data, samplesWritten);
      }
    }

    /** The copy loop of `write`: `count` samples into the slots after the write pointer. */
    method CopyIn(data: seq<T>, count: int)
      requires Valid()
      requires 0 <= count <= |data| && |Contents| + count < bufferSize
      modifies this`writePointer, this`Contents, buffer
      ensures Valid()
      ensures Contents == old(Contents) + data[..count]
      ensures readPointer == old(readPointer)
    {
      ghost var before := Contents;
      var currentWritePointer := writePointer;
      for i := 0 to count
        invariant currentWritePointer == Wrap(readPointer + |before| + i, bufferSize)
        invariant Stored(before + data[..i], buffer[..], readPointer)
      {
        StoredAppend(before + data[..i], buffer[..], readPointer, data[i]);
        buffer[currentWritePointer] := data[i];
        assert before + data[..i + 1] == before + data[..i] + [data[i]];
        currentWritePointer := Advance(currentWritePointer, bufferSize);
      }
      writePointer := currentWritePointer;
      Contents := before + data[..count];
      DistanceOf(readPointer, |before| + count, bufferSize);
    }

    /**
     * `read(data, numSamples)`: moves up to `numSamples` of the oldest samples
     * into the front of `dest` and returns how many that was.
     */
    method Read(dest: array<T>, numSamples: int) returns (samplesRead: int)
      requires Valid()
      requires numSamples <= dest.Length
      requires dest != buffer
      modifies this`readPointer, this`Contents, dest
      ensures Valid()
      ensures samplesRead == Transfer(|old(Contents)|, numSamples)
      ensures samplesRead > 0 ==> dest[..samplesRead] == old(Contents)[..samplesRead]
      ensures samplesRead > 0 ==> dest[samplesRead..] == old(dest[samplesRead..])
      ensures samplesRead <= 0 ==> dest[..] == old(dest[..])
      ensures Contents == if samplesRead > 0 then old(Contents)[samplesRead..] else old(Contents)
      ensures writePointer == old(writePointer)
    {
      var currentWritePointer := writePointer;
      var currentReadPointer := readPointer;
      var availableSamples := Available(currentWritePointer, currentReadPointer, bufferSize);
      RingAccounting(currentWritePointer, currentReadPointer, bufferSize);
      if availableSamples == 0 {
        return 0;
      }
      samplesRead := if numSamples < availableSamples then numSamples else availableSamples;
      if samplesRead > 0 {
        CopyOut(dest, samplesRead);
      }
    }

    /** The copy loop of `read`: the oldest `count` samples into `dest[..count]`. */
    method CopyOut(dest: array<T>, count: int)
      requires Valid()
      requires 0 <= count <= dest.Length && count <= |Contents|
      requires dest != buffer
      modifies this`readPointer, this`Contents, dest
      ensures Valid()
      ensures dest[..count] == old(Contents)[..count]
      ensures dest[count..] == old(dest[count..])
      ensures Contents == old(Contents)[count..]
      ensures writePointer == old(writePointer)
    {
      ghost var before := Contents;
      ghost var r0 := readPointer;
      var currentReadPointer := readPointer;
      for i := 0 to count
        invariant currentReadPointer == Wrap(r0 + i, bufferSize)
        invariant dest[..i] == before[..i]
        invariant dest[i..] == old(dest[i..])
      {
        assert buffer[..][Wrap(r0 + i, bufferSize)] == before[i];
        dest[i] := buffer[currentReadPointer];
        assert dest[..i + 1] == dest[..i] + [dest[i]];
        assert before[..i + 1] == before[..i] + [before[i]];
        assert dest[i + 1..] == old(dest[..])[i + 1..];
        currentReadPointer := Advance(currentReadPointer, bufferSize);
      }
      readPointer := currentReadPointer;
      Contents := before[count..];
      StoredDrop(before, buffer[..], r0, count);
      WrapShift(r0, count, |before| - count, bufferSize);
      DistanceOf(readPointer, |before| - count, bufferSize);
    }

    /** `clear()`: both pointers back to slot 0; the slots keep their old values. */
    method Clear()
      requires Valid()
      modifies this`writePointer, this`readPointer, this`Contents
      ensures Valid()
      ensures Contents == [] && writePointer == 0 && readPointer == 0
    {
      writePointer := 0;
      readPointer := 0;
      Contents := [];
      RingAccounting(0, 0, bufferSize);
    }
  }

  /**
   * First scenario of tests/LockFreeAudioFIFOTest.cpp on a ten-slot FIFO: one
   * sample in, one sample out, and the FIFO is empty again.
   */
  method SingleSampleScenario(x: real)
    returns (written: int, availableAfterWrite: int, read: int, value: real, availableAfterRead: int)
    ensures written == 1 && availableAfterWrite == 1
    ensures read == 1 && value == x
    ensures availableAfterRead == 0
  {
    var fifo := new Fifo<real>(10, 0.0);
    written := fifo.Write([x], 1);
    availableAfterWrite := fifo.GetNumAvailableSamples();
    var out := new real[1](_ => 0.0);
    read := fifo.Read(out, 1);
    value := out[0];
    availableAfterRead := fifo.GetNumAvailableSamples();
  }

  /**
   * Second scenario of the same test: after one sample has passed through,
   * nine samples (the most a ten-slot FIFO holds) go in across the wrap point
   * and come out in order.
   */
  method FillAndDrainScenario(data: seq<real>)
    returns (written: int, availableAfterWrite: int, read: int, out: seq<real>, availableAfterRead: int)
    requires |data| == 9
    ensures written == 9 && availableAfterWrite == 9
    ensures read == 9 && out == data
    ensures availableAfterRead == 0
  {
    var fifo := new Fifo<real>(10, 0.0);
    var _ := fifo.Write([0.0], 1);
    var one := new real[1](_ => 0.0);
    var _ := fifo.Read(one, 1);
    written := fifo.Write(data, 9);
    availableAfterWrite := fifo.GetNumAvailableSamples();
    var dest := new real[9](_ => 0.0);
    read := fifo.Read(dest, 9);
    out := dest[..];
    availableAfterRead := fifo.GetNumAvailableSamples();
  }
}
