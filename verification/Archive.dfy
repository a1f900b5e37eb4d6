// The archive reader of the NexGen importer (importers/nexgen_filter.cpp): records of a
// 104-byte header and a payload, copied out block by block.
module Archive {
  import opened Arithmetic
  import opened RingBuffer

  const HEADER: nat := 104

  datatype Record = Record(header: seq<Byte>, payload: seq<Byte>)

  // The files written, and whether the copy loop went on for ever.
  datatype Extraction = Extraction(files: seq<Record>, stuck: bool)

  // A header begins with FR: and ends with the length, least significant byte first.
  predicate IsHeader(h: seq<Byte>) {
    |h| == HEADER && h[0] == 70 && h[1] == 82 && h[2] == 58
  }

  function LengthOf(h: seq<Byte>): (n: nat)
    requires |h| == HEADER
    ensures n < WORD
  {
    0x100_0000 * (h[103] as int) + 0x1_0000 * (h[102] as int) + 0x100 * (h[101] as int) + h[100] as int
  }

  // What read() takes from the rest of a file, and what it leaves.
  function Got(rest: seq<Byte>, count: nat): seq<Byte> {
    Taken(rest, count)
  }

  // The loop variable is an unsigned int, which comes back below the length when the
  // next multiple of the block size does not fit.
  predicate Wraps(length: nat, block: nat)
    requires block > 0
  {
    length > block && (length - 1) / block * block + block >= WORD
  }

  // The bytes that the copy loop and the read after it ask for.
  function Copied(length: nat, block: nat): nat
    requires block > 0
  {
    if length > 0 && length % block == 0 then length - block else length
  }

  function Extract(rest: seq<Byte>, block: nat): Extraction
    requires block > 0
    decreases |rest|
  {
    var header := Got(rest, HEADER);
    if !IsHeader(header) then Extraction([], false)
    else if Wraps(LengthOf(header), block) then Extraction([], true)
    else
      var n := Copied(LengthOf(header), block);
      After([Record(header, Got(rest[HEADER..], n))], Extract(Following(rest, block), block))
  }

  // What is extracted when some files have been written before.
  function After(files: seq<Record>, e: Extraction): Extraction {
    Extraction(files + e.files, e.stuck)
  }

  // What follows the record at the head of the rest.
  function Following(rest: seq<Byte>, block: nat): (more: seq<Byte>)
    requires block > 0 && IsHeader(Got(rest, HEADER))
    ensures |more| < |rest|
  {
    Left(rest[HEADER..], Copied(LengthOf(Got(rest, HEADER)), block))
  }

  lemma AfterAnother(files: seq<Record>, rest: seq<Byte>, block: nat)
    requires block > 0
    requires var header := Got(rest, HEADER); IsHeader(header) && !Wraps(LengthOf(header), block)
    ensures var header := Got(rest, HEADER);
            var r := Record(header, Got(rest[HEADER..], Copied(LengthOf(header), block)));
            After(files, Extract(rest, block)) == After(files + [r], Extract(Following(rest, block), block))
  {
    var header, e := Got(rest, HEADER), Extract(Following(rest, block), block);
    var r := Record(header, Got(rest[HEADER..], Copied(LengthOf(header), block)));
    assert files + ([r] + e.files) == files + [r] + e.files;
  }

  lemma AfterLast(files: seq<Record>, rest: seq<Byte>, block: nat)
    requires block > 0
    requires var header := Got(rest, HEADER); IsHeader(header) ==> Wraps(LengthOf(header), block)
    ensures After(files, Extract(rest, block)) == Extraction(files, IsHeader(Got(rest, HEADER)))
  {
    assert files + [] == files;
  }

  lemma AfterNone(e: Extraction)
    ensures After([], e) == e
  {
    assert [] + e.files == e.files;
  }

  // ----- The loops ------------------------------------------------------------------

  class InputFile {
    const data: seq<Byte>
    var pos: nat

    ghost predicate Valid()
      reads this
    {
      pos <= |data|
    }

    ghost function Rest(): seq<Byte>
      reads this
      requires Valid()
    {
      data[pos..]
    }

    constructor (bytes: seq<Byte>)
      ensures Valid() && data == bytes && Rest() == bytes
    {
      data := bytes;
      pos := 0;
    }

    method Read(count: nat) returns (bytes: seq<Byte>)
      requires Valid()
      modifies this
      ensures Valid() && bytes == Got(old(Rest()), count) && Rest() == Left(old(Rest()), count)
    {
      var n := if count > |data| - pos then |data| - pos else count;
      bytes := data[pos..pos + n];
      pos := pos + n;
    }
  }

  lemma ReadTwice(rest: seq<Byte>, a: nat, b: nat)
    ensures Got(rest, a) + Got(Left(rest, a), b) == Got(rest, a + b)
    ensures Left(Left(rest, a), b) == Left(rest, a + b)
  {
  }

  lemma LastMultiple(length: nat, block: nat, before: nat)
    requires block > 0 && before % block == 0 && (before < length || length == 0 == before) && length <= before + block
    ensures Copied(length, block) == before + length % block
    ensures length > block ==> (length - 1) / block * block == before
  {
    Division(before, block);
    var k := before / block;
    if length == before + block {
      Remainder(length, block, k + 1, 0);
      Remainder(length - 1, block, k, block - 1);
    } else if length > 0 {
      Remainder(length, block, k, length - before);
      Remainder(length - 1, block, k, length - 1 - before);
    }
  }

  lemma Remainder(x: nat, d: nat, q: nat, r: nat)
    requires d > 0 && r < d && x == q * d + r
    ensures x / d == q && x % d == r
  {
    Division(x, d);
    Cancel(x / d, q + 1, d);
    Cancel(q, x / d + 1, d);
    assert (q + 1) * d == q * d + d && (x / d + 1) * d == x / d * d + d;
  }

  lemma NextMultiple(before: nat, block: nat)
    requires block > 0 && before % block == 0
    ensures (before + block) % block == 0
  {
    Division(before, block);
    Remainder(before + block, block, before / block + 1, 0);
  }

  // One read and the write behind it, when done bytes have been copied so far.
  method CopyMore(input: InputFile, payload: seq<Byte>, count: nat, ghost rest: seq<Byte>, ghost done: nat)
    returns (more: seq<Byte>)
    requires input.Valid() && payload == Got(rest, done) && input.Rest() == Left(rest, done)
    modifies input
    ensures input.Valid() && more == Got(rest, done + count) && input.Rest() == Left(rest, done + count)
  {
    var data := input.Read(count);
    more := payload + data;
    ReadTwice(rest, done, count);
  }

  // The copy of one payload.
  method CopyPayload(input: InputFile, length: nat, block: nat) returns (payload: seq<Byte>, stuck: bool)
    requires input.Valid() && 0 < block < WORD && length < WORD
    modifies input
    ensures input.Valid() && stuck == Wraps(length, block)
    ensures !stuck ==> payload == Got(old(input.Rest()), Copied(length, block))
    ensures !stuck ==> input.Rest() == Left(old(input.Rest()), Copied(length, block))
    ensures !stuck ==>
      payload == Got(old(input.Rest()), if length > 0 && length % block == 0 then length - block else length)
  {
    payload := [];
    ghost var rest := input.Rest();
    var i := block;
    while i < length
      invariant input.Valid() && i >= block && (i - block) % block == 0
      invariant i - block < length || (length == 0 && i == block)
      invariant payload == Got(rest, i - block) && input.Rest() == Left(rest, i - block)
      invariant i < WORD
    {
      payload := CopyMore(input, payload, block, rest, i - block);
      NextMultiple(i - block, block);
      if i + block >= WORD {
        LastMultiple(length, block, i);
        return payload, true;
      }
      i := i + block;
    }
    LastMultiple(length, block, i - block);
    payload := CopyMore(input, payload, length % block, rest, i - block);
    return payload, false;
  }

  // ProcessArchive: the loop over the records.
  method ProcessArchive(archive: seq<Byte>, block: nat) returns (files: seq<Record>, stuck: bool)
    requires 0 < block < WORD
    ensures Extraction(files, stuck) == Extract(archive, block)
  {
    var input := new InputFile(archive);
    files, stuck := [], false;
    var header := input.Read(HEADER);
    ghost var rest := archive;
    AfterNone(Extract(archive, block));
    while IsHeader(header)
      invariant input.Valid() && fresh(input) && !stuck
      invariant header == Got(rest, HEADER) && input.Rest() == Left(rest, HEADER)
      invariant After(files, Extract(rest, block)) == Extract(archive, block)
      decreases |rest|
    {
      var payload;
      payload, stuck := CopyPayload(input, LengthOf(header), block);
      if stuck {
        AfterLast(files, rest, block);
        return;
      }
      AfterAnother(files, rest, block);
      files := files + [Record(header, payload)];
      rest := Following(rest, block);
      header := input.Read(HEADER);
    }
    AfterLast(files, rest, block);
  }

  // ----- Headers -----------------------------------------------------------------------

  // A header that begins with FR: and ends with the length, its low byte first.
  function HeaderOf(middle: seq<Byte>, length: nat): seq<Byte>
    requires length < 0x1_0000_0000
  {
    [70, 82, 58] + middle +
    [length % 256, length / 256 % 256, length / 256 / 256 % 256, length / 256 / 256 / 256]
  }

  // The length of a header is the one that was written into it.
  lemma HeaderKeepsLength(middle: seq<Byte>, length: nat)
    requires |middle| == 97 && length < 0x1_0000_0000
    ensures IsHeader(HeaderOf(middle, length)) && LengthOf(HeaderOf(middle, length)) == length
  {
    var h := HeaderOf(middle, length);
    var a := length / 256;
    var b := a / 256;
    assert h[100..] == [length % 256, a % 256, b % 256, b / 256];
    assert h[100] == h[100..][0] && h[101] == h[100..][1] && h[102] == h[100..][2] && h[103] == h[100..][3];
    Division(length, 256);
    Division(a, 256);
    Division(b, 256);
  }

  // ----- Extraction inverts archiving --------------------------------------------------

  predicate WellFormed(r: Record) {
    IsHeader(r.header) && LengthOf(r.header) == |r.payload|
  }

  function Archived(records: seq<Record>): seq<Byte> {
    if records == [] then [] else records[0].header + records[0].payload + Archived(records[1..])
  }

  // A payload whose length is a positive multiple of the block size is copied without
  // its last block.
  predicate KeepsPayload(r: Record, block: nat)
    requires block > 0
  {
    |r.payload| == 0 || |r.payload| % block != 0
  }

  lemma ExtractFirst(r: Record, tail: seq<Byte>, block: nat)
    requires block > 0 && WellFormed(r)
    ensures var rest := r.header + r.payload + tail;
            && Got(rest, HEADER) == r.header
            && Got(rest[HEADER..], Copied(|r.payload|, block)) == r.payload[..Copied(|r.payload|, block)]
            && Left(rest[HEADER..], Copied(|r.payload|, block)) == r.payload[Copied(|r.payload|, block)..] + tail
  {
    var rest := r.header + r.payload + tail;
    assert rest[HEADER..] == r.payload + tail;
    CopiedAtMost(|r.payload|, block);
  }

  lemma CopiedAtMost(length: nat, block: nat)
    requires block > 0
    ensures Copied(length, block) <= length
    ensures Copied(length, block) == length <==> length == 0 || length % block != 0
  {
  }

  lemma ExtractRecord(r: Record, more: seq<Record>, block: nat)
    requires block > 0 && WellFormed(r)
    ensures var n := Copied(|r.payload|, block);
            n <= |r.payload| &&
            Extract(Archived([r] + more), block) ==
            if Wraps(|r.payload|, block) then Extraction([], true)
            else After([Record(r.header, r.payload[..n])], Extract(r.payload[n..] + Archived(more), block))
  {
    assert ([r] + more)[1..] == more;
    CopiedAtMost(|r.payload|, block);
    ExtractFirst(r, Archived(more), block);
  }

  lemma ExtractKept(r: Record, more: seq<Record>, block: nat)
    requires block > 0 && WellFormed(r)
    ensures Extract(Archived([r] + more), block) == Extraction([r] + more, false) <==>
            !Wraps(|r.payload|, block) && KeepsPayload(r, block) &&
            Extract(Archived(more), block) == Extraction(more, false)
  {
    var n := Copied(|r.payload|, block);
    CopiedAtMost(|r.payload|, block);
    ExtractRecord(r, more, block);
    var first, e := Record(r.header, r.payload[..n]), Extract(r.payload[n..] + Archived(more), block);
    SameHead(first, e.files, r, more);
    if KeepsPayload(r, block) {
      assert r.payload[..n] == r.payload && r.payload[n..] + Archived(more) == Archived(more);
    }
  }

  lemma SameHead(r: Record, rs: seq<Record>, s: Record, ss: seq<Record>)
    ensures [r] + rs == [s] + ss <==> r == s && rs == ss
  {
    if [r] + rs == [s] + ss {
      assert ([r] + rs)[0] == ([s] + ss)[0];
      assert ([r] + rs)[1..] == rs && ([s] + ss)[1..] == ss;
    }
  }

  predicate Extractable(r: Record, block: nat)
    requires block > 0
  {
    !Wraps(|r.payload|, block) && KeepsPayload(r, block)
  }

  // Extracting what has been archived gives back the records exactly when no payload
  // is a positive multiple of the block size, or so long that the loop variable wraps.
  lemma {:induction false} ExtractInvertsIff(records: seq<Record>, block: nat)
    requires block > 0 && forall i :: 0 <= i < |records| ==> WellFormed(records[i])
    ensures Extract(Archived(records), block) == Extraction(records, false) <==>
            forall i :: 0 <= i < |records| ==> Extractable(records[i], block)
    decreases |records|
  {
    if records == [] {
      assert Got([], HEADER) == [];
    } else {
      var more := records[1..];
      assert records == [records[0]] + more;
      ExtractKept(records[0], more, block);
      forall i | 0 <= i < |more| ensures more[i] == records[i + 1] {
      }
      ExtractInvertsIff(more, block);
      assert (forall i :: 0 <= i < |records| ==> Extractable(records[i], block)) ==>
             forall i :: 0 <= i < |more| ==> Extractable(more[i], block);
    }
  }
}
