// The byte FIFO of lib/rdringbuffer.cpp: a circular buffer whose size is a power of
// two and which always keeps one byte free.
module RingBuffer {
  import opened Arithmetic

  type Byte = b: int | 0 <= b < 256

  // ----- What reading and writing do to the bytes held -------------------------

  // A write stores what fits; a read takes what is there.
  function Stored(held: seq<Byte>, capacity: nat, src: seq<Byte>): seq<Byte>
    requires |held| <= capacity
  {
    held + src[..Min(|src|, capacity - |held|)]
  }

  function Taken(held: seq<Byte>, count: nat): seq<Byte> {
    held[..Min(count, |held|)]
  }

  function Left(held: seq<Byte>, count: nat): seq<Byte> {
    held[Min(count, |held|)..]
  }

  predicate PowerOfTwo(n: nat) {
    n == 1 || (n > 1 && n % 2 == 0 && PowerOfTwo(n / 2))
  }

  lemma Doubled(n: nat)
    requires PowerOfTwo(n)
    ensures PowerOfTwo(2 * n)
  {
    assert 2 * n % 2 == 0 && 2 * n / 2 == n;
  }

  // The pointers are reduced with the mask size - 1.  Since size is a power of two
  // this is the remainder modulo size, and no pointer exceeds twice the size.
  function Mask(x: nat, size: nat): (r: nat)
    requires x < 2 * size
    ensures r < size && r == x % size
  {
    MaskIsRemainder(x, size);
    if x < size then x else x - size
  }

  lemma MaskIsRemainder(x: nat, size: nat)
    requires x < 2 * size
    ensures x % size == if x < size then x else x - size
  {
    Division(x, size);
    Cancel(x / size, 2, size);
    if x / size == 1 {
      assert x / size * size == size;
    }
  }

  // The bytes between the read pointer r and the write pointer w.
  function Between(b: seq<Byte>, r: nat, w: nat): seq<Byte>
    requires r < |b| && w < |b|
  {
    if r <= w then b[r..w] else b[r..] + b[..w]
  }

  lemma BetweenSize(b: seq<Byte>, r: nat, w: nat)
    requires r < |b| && w < |b|
    ensures |Between(b, r, w)| == if r <= w then w - r else |b| - r + w
  {
  }

  // Taking n bytes in one piece.
  lemma BetweenTake(b: seq<Byte>, r: nat, w: nat, n: nat)
    requires r < |b| && w < |b| && n <= |Between(b, r, w)| && r + n <= |b|
    ensures b[r..r + n] == Between(b, r, w)[..n]
    ensures Between(b, Mask(r + n, |b|), w) == Between(b, r, w)[n..]
  {
  }

  // Putting x in one piece.
  lemma BetweenPut(b: seq<Byte>, r: nat, w: nat, x: seq<Byte>)
    requires r < |b| && w < |b| && |x| < |b| - |Between(b, r, w)| && w + |x| <= |b|
    ensures Between(b[..w] + x + b[w + |x|..], r, Mask(w + |x|, |b|)) == Between(b, r, w) + x
  {
    BetweenSize(b, r, w);
    if r > w {
      PutBelow(b, r, w, x);
    } else if w + |x| < |b| {
      PutAbove(b, r, w, x);
    } else {
      assert b[..w] + x + b[w + |x|..] == b[..w] + x;
      assert (b[..w] + x)[r..] == b[r..w] + x;
    }
  }

  lemma PutBelow(b: seq<Byte>, r: nat, w: nat, x: seq<Byte>)
    requires w + |x| < r < |b|
    ensures var c := b[..w] + x + b[w + |x|..]; c[r..] + c[..w + |x|] == b[r..] + b[..w] + x
  {
    var c := b[..w] + x + b[w + |x|..];
    assert c[r..] == b[r..] && c[..w + |x|] == b[..w] + x;
  }

  lemma PutAbove(b: seq<Byte>, r: nat, w: nat, x: seq<Byte>)
    requires r <= w && w + |x| < |b|
    ensures (b[..w] + x + b[w + |x|..])[r..w + |x|] == b[r..w] + x
  {
  }

  lemma TakeTwice(held: seq<Byte>, was: seq<Byte>, n1: nat, n2: nat)
    requires n1 + n2 <= |held| && n1 + n2 <= |was|
    ensures var d := held[..n1] + was[n1..];
            d[..n1] + held[n1..][..n2] + d[n1 + n2..] == held[..n1 + n2] + was[n1 + n2..]
    ensures held[n1..][n2..] == held[n1 + n2..]
  {
  }

  // memcpy
  method CopyBytes(src: array<Byte>, from: nat, dest: array<Byte>, to: nat, n: nat)
    requires src != dest && from + n <= src.Length && to + n <= dest.Length
    modifies dest
    ensures dest[..] == old(dest[..])[..to] + src[from..from + n] + old(dest[..])[to + n..]
  {
    forall i | 0 <= i < n {
      dest[to + i] := src[from + i];
    }
  }

  class RDRingBuffer {
    const buf: array<Byte>
    const size: nat
    var writePtr: nat
    var readPtr: nat

    ghost predicate Valid()
      reads this, buf
    {
      size >= 2 && buf.Length == size && writePtr < size && readPtr < size
    }

    // The bytes held, oldest first.
    ghost function Contents(): seq<Byte>
      reads this, buf
      requires Valid()
    {
      Between(buf[..], readPtr, writePtr)
    }

    constructor (sz: nat)
      ensures Valid() && fresh(buf) && Contents() == []
      ensures PowerOfTwo(size) && size >= sz && (size == 2 || size < 2 * sz)
    {
      var p := 2;
      while p < sz
        invariant PowerOfTwo(p) && p >= 2 && (p == 2 || p < 2 * sz)
      {
        Doubled(p);
        p := 2 * p;
      }
      size := p;
      buf := new Byte[p](_ => 0);
      writePtr := 0;
      readPtr := 0;
    }

    method Reset()
      requires Valid()
      modifies `readPtr, `writePtr
      ensures Valid() && Contents() == []
    {
      readPtr := 0;
      writePtr := 0;
    }

    method WriteSpace() returns (n: nat)
      requires Valid()
      ensures n == size - 1 - |Contents()|
    {
      var w, r := writePtr, readPtr;
      BetweenSize(buf[..], r, w);
      if w > r {
        n := Mask(r - w + size, size) - 1;
      } else if w < r {
        n := r - w - 1;
      } else {
        n := size - 1;
      }
    }

    method ReadSpace() returns (n: nat)
      requires Valid()
      ensures n == |Contents()|
    {
      var w, r := writePtr, readPtr;
      BetweenSize(buf[..], r, w);
      if w > r {
        n := w - r;
      } else {
        n := Mask(w + size - r, size);
      }
    }

    // Copy n bytes that lie in one piece, and advance the read pointer.
    method TakePiece(dest: array<Byte>, at: nat, n: nat)
      requires Valid() && dest != buf && at + n <= dest.Length
      requires n <= |Contents()| && readPtr + n <= size
      modifies `readPtr, dest
      ensures Valid() && readPtr == Mask(old(readPtr) + n, size)
      ensures Contents() == old(Contents())[n..]
      ensures dest[..] == old(dest[..])[..at] + old(Contents())[..n] + old(dest[..])[at + n..]
    {
      BetweenTake(buf[..], readPtr, writePtr, n);
      CopyBytes(buf, readPtr, dest, at, n);
      assert buf[readPtr..readPtr + n] == buf[..][readPtr..readPtr + n];
      readPtr := Mask(readPtr + n, size);
    }

    // Copy n bytes to where they fit in one piece, and advance the write pointer.
    method PutPiece(src: array<Byte>, at: nat, n: nat)
      requires Valid() && src != buf && at + n <= src.Length
      requires n <= size - 1 - |Contents()| && writePtr + n <= size
      modifies `writePtr, buf
      ensures Valid() && writePtr == Mask(old(writePtr) + n, size)
      ensures Contents() == old(Contents()) + src[at..at + n]
    {
      BetweenPut(buf[..], readPtr, writePtr, src[at..at + n]);
      CopyBytes(src, at, buf, writePtr, n);
      writePtr := Mask(writePtr + n, size);
    }

    method Read(dest: array<Byte>, count: nat) returns (n: nat)
      requires Valid() && dest != buf && Min(count, |Contents()|) <= dest.Length
      modifies `readPtr, dest
      ensures Valid() && n == Min(count, |old(Contents())|)
      ensures dest[..] == Taken(old(Contents()), count) + old(dest[..])[n..]
      ensures Contents() == Left(old(Contents()), count)
    {
      var available := ReadSpace();
      if available == 0 {
        return 0;
      }
      n := if count > available then available else count;
      if readPtr + n > size {
        TakeWrapped(dest, size - readPtr, Mask(readPtr + n, size));
      } else {
        TakeStraight(dest, n);
      }
    }

    // Copy n bytes that end before the end of the buffer or at it.
    method TakeStraight(dest: array<Byte>, n: nat)
      requires Valid() && dest != buf && n <= dest.Length && n <= |Contents()| && readPtr + n <= size
      modifies `readPtr, dest
      ensures Valid() && Contents() == old(Contents())[n..]
      ensures dest[..] == old(Contents())[..n] + old(dest[..])[n..]
    {
      TakePiece(dest, 0, n);
      assert old(dest[..])[..0] == [];
    }

    // Copy n1 bytes up to the end of the buffer and n2 bytes from its start.
    method TakeWrapped(dest: array<Byte>, n1: nat, n2: nat)
      requires Valid() && dest != buf && n1 + n2 <= dest.Length && n1 + n2 <= |Contents()|
      requires readPtr + n1 == size && n2 <= size
      modifies `readPtr, dest
      ensures Valid() && Contents() == old(Contents())[n1 + n2..]
      ensures dest[..] == old(Contents())[..n1 + n2] + old(dest[..])[n1 + n2..]
    {
      ghost var held, was := Contents(), dest[..];
      TakePiece(dest, 0, n1);
      ghost var d := dest[..];
      assert d == held[..n1] + was[n1..];
      TakeTwice(held, was, n1, n2);
      TakePiece(dest, n1, n2);
    }

    method Write(src: array<Byte>, count: nat) returns (n: nat)
      requires Valid() && src != buf && count <= src.Length
      modifies `writePtr, buf
      ensures Valid() && n == Min(count, size - 1 - |old(Contents())|)
      ensures Contents() == Stored(old(Contents()), size - 1, src[..count])
    {
      var free := WriteSpace();
      if free == 0 {
        return 0;
      }
      n := if count > free then free else count;
      if writePtr + n > size {
        PutWrapped(src, size - writePtr, Mask(writePtr + n, size));
      } else {
        PutPiece(src, 0, n);
      }
      assert src[..count][..n] == src[0..n];
    }

    // Copy n1 bytes up to the end of the buffer and n2 bytes to its start.
    method PutWrapped(src: array<Byte>, n1: nat, n2: nat)
      requires Valid() && src != buf && n1 + n2 <= src.Length && n1 + n2 <= size - 1 - |Contents()|
      requires writePtr + n1 == size && n2 <= size
      modifies `writePtr, buf
      ensures Valid() && Contents() == old(Contents()) + src[0..n1 + n2]
    {
      PutPiece(src, 0, n1);
      PutPiece(src, n1, n2);
      assert src[0..n1 + n2] == src[0..n1] + src[n1..n1 + n2];
    }
  }
}
