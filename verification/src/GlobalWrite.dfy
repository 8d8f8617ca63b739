/**
 The line assembler that receives the runtime's own output,
 client/ringlogger/global.go:33-63: a fixed buffer, flushed to the ring at every
 newline and whenever it is full and more input is waiting.
 */
module GlobalWrite {
  import opened RingLog
  import Text

  const BUFFER := MAX_LINE - 1 - MAX_TAG - 3
  const NEWLINE: byte := 10

  function Flatten(chunks: seq<seq<byte>>): seq<byte> {
    if chunks == [] then [] else Flatten(chunks[..|chunks| - 1]) + chunks[|chunks| - 1]
  }

  /** No chunk this assembler hands to the ring can be cut there. */
  lemma ChunkFitsLine(tag: seq<byte>, chunk: seq<byte>)
    requires |tag| <= MAX_TAG && Ripe(chunk)
    ensures LineText(tag, TrimSpace(chunk)) == [OPEN] + tag + [CLOSE, SPACE] + TrimSpace(chunk)
  {
  }

  /** And a larger buffer would not do: behind the longest tag one byte more no longer fits a line. */
  lemma BufferIsLargest(tag: seq<byte>, chunk: seq<byte>)
    requires |tag| == 5
    ensures |[OPEN] + tag + [CLOSE, SPACE] + chunk| < 512 <==> |chunk| <= BUFFER
  {
  }

  /** A chunk is let go only for a newline in it or for lack of room. */
  predicate Ripe(c: seq<byte>) {
    |c| == BUFFER || (|c| < BUFFER && NEWLINE in c)
  }

  class Assembler {
    var buffer: array<byte>
    var location: nat
    var flushed: seq<seq<byte>>

    ghost predicate Valid()
      reads this, buffer
    {
      && buffer.Length == BUFFER && location <= BUFFER
      && NEWLINE !in buffer[..location]
      && forall c :: c in flushed ==> Ripe(c)
    }

    /** Everything ever received, as it now stands in chunks and buffer. */
    ghost function Received(): seq<byte>
      requires Valid()
      reads this, buffer
    {
      Flatten(flushed) + buffer[..location]
    }

    constructor ()
      ensures Valid() && fresh(buffer) && flushed == [] && location == 0
    {
      buffer := new byte[BUFFER](_ => 0);
      location, flushed := 0, [];
    }

    method CopyIn(b: seq<byte>)
      requires location + |b| <= buffer.Length
      modifies buffer
      ensures buffer[..location + |b|] == old(buffer[..location]) + b
    {
      for i := 0 to |b|
        invariant buffer[..location] == old(buffer[..location])
        invariant buffer[location..location + i] == b[..i]
      {
        buffer[location + i] := b[i];
        assert buffer[location..location + i + 1] == buffer[location..location + i] + [b[i]];
      }
      assert buffer[..location + |b|] == buffer[..location] + buffer[location..location + |b|];
    }

    method FindNewline(from: nat, to: nat) returns (found: bool)
      requires from <= to <= buffer.Length
      ensures found <==> NEWLINE in buffer[from..to]
    {
      found := false;
      for i := from to to
        invariant NEWLINE !in buffer[from..i]
      {
        if buffer[i] == NEWLINE {
          assert buffer[from..to][i - from] == NEWLINE;
          return true;
        }
        assert buffer[from..i + 1] == buffer[from..i] + [buffer[i]];
      }
    }

    /** Lets the buffer go as one chunk when it is ripe; no byte is lost either way. */
    method FlushIf(due: bool)
      requires buffer.Length == BUFFER && location <= BUFFER && forall c :: c in flushed ==> Ripe(c)
      requires if due then Ripe(buffer[..location]) else NEWLINE !in buffer[..location]
      modifies this`location, this`flushed
      ensures Valid() && Received() == old(Flatten(flushed) + buffer[..location])
      ensures location == if due then 0 else old(location)
      ensures old(flushed) <= flushed
    {
      if due {
        ghost var chunks := flushed;
        flushed := flushed + [buffer[..location]];
        assert flushed[..|flushed| - 1] == chunks;
        location := 0;
      }
    }

    /** One turn: fill the buffer, flush it if a newline came in or input is left. */
    method Turn(b: seq<byte>) returns (rest: seq<byte>)
      requires Valid() && b != []
      modifies this`location, this`flushed, buffer
      ensures Valid() && |rest| <= |b| && rest == b[|b| - |rest|..]
      ensures Received() == old(Received()) + b[..|b| - |rest|]
      ensures |rest| < |b| || location < old(location)
      ensures old(flushed) <= flushed
    {
      var available := BUFFER - location;
      var amount := |b|;
      if amount > available { amount := available; }
      ghost var before, part := buffer[..location], b[..amount];
      CopyIn(b[..amount]);
      location := location + amount;
      rest := b[amount..];
      var newline := FindNewline(location - amount, location);
      assert buffer[location - amount..location] == part && buffer[..location] == before + part;
      Text.Reassociate(Flatten(flushed), before, part);
      FlushIf(newline || |rest| > 0);
    }

    /** Conserves every byte; a buffer that starts full costs one turn that copies nothing. */
    method Write(p: seq<byte>) returns (n: nat)
      requires Valid()
      modifies this`location, this`flushed, buffer
      ensures Valid() && n == |p|
      ensures Received() == old(Received()) + p
      ensures old(flushed) <= flushed && forall i :: 0 <= i < location ==> buffer[i] != 10
    {
      var b := p;
      while |b| > 0
        invariant Valid() && |b| <= |p| && b == p[|p| - |b|..]
        invariant Received() == old(Received()) + p[..|p| - |b|]
        invariant old(flushed) <= flushed
        decreases |b|, location
      {
        ghost var before := b;
        b := Turn(b);
        assert p[..|p| - |b|] == p[..|p| - |before|] + before[..|before| - |b|];
      }
      n := |p|;
    }
  }
}
