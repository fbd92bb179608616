/** One stream cut into part files, and part files read as one stream. */
module PartFiles {
  import opened Ranges
  import opened Options

  /** A part's manifest entry. */
  datatype Entry = Entry(length: nat, sha256: string)

  // ----- What the parts of a stream are -----

  /** The parts of a stream: every one of `n` bytes but the last, which holds the rest. */
  ghost function Chunks(stream: seq<Byte>, n: nat): seq<seq<Byte>>
    requires n >= 1
  {
    if stream == [] then [] else if |stream| <= n then [stream] else [stream[..n]] + Chunks(stream[n..], n)
  }

  ghost function Flatten(parts: seq<seq<Byte>>): seq<Byte> {
    if parts == [] then [] else parts[0] + Flatten(parts[1..])
  }

  /** The parts already full, and the bytes of the one still open. */
  ghost function Full(stream: seq<Byte>, n: nat): seq<seq<Byte>>
    requires n >= 1
  {
    if |stream| < n then [] else [stream[..n]] + Full(stream[n..], n)
  }

  ghost function Rest(stream: seq<Byte>, n: nat): seq<Byte>
    requires n >= 1
  {
    if |stream| < n then stream else Rest(stream[n..], n)
  }

  ghost function Sealed(full: seq<seq<Byte>>, rest: seq<Byte>): seq<seq<Byte>> {
    if rest == [] then full else full + [rest]
  }

  /** Cutting as bytes arrive cuts as cutting the whole stream does. */
  lemma {:induction false} CutInPieces(a: seq<Byte>, b: seq<Byte>, n: nat)
    requires n >= 1
    ensures Full(a + b, n) == Full(a, n) + Full(Rest(a, n) + b, n)
    ensures Rest(a + b, n) == Rest(Rest(a, n) + b, n)
    decreases |a|
  {
    if |a| >= n {
      CutInPieces(a[n..], b, n);
      assert (a + b)[..n] == a[..n] && (a + b)[n..] == a[n..] + b;
    }
  }

  lemma {:induction false} SealedIsChunks(stream: seq<Byte>, n: nat)
    requires n >= 1
    ensures Sealed(Full(stream, n), Rest(stream, n)) == Chunks(stream, n)
    ensures |Rest(stream, n)| < n
    decreases |stream|
  {
    if |stream| >= n {
      SealedIsChunks(stream[n..], n);
      if |stream| == n {
        assert stream[..n] == stream && stream[n..] == [];
      }
    }
  }

  /** Parts hold the stream in order; all but the last are exactly full, and none is empty. */
  lemma {:induction false} ChunksShape(stream: seq<Byte>, n: nat)
    requires n >= 1
    ensures Flatten(Chunks(stream, n)) == stream
    ensures forall i :: 0 <= i < |Chunks(stream, n)| - 1 ==> |Chunks(stream, n)[i]| == n
    ensures forall i :: 0 <= i < |Chunks(stream, n)| ==> 0 < |Chunks(stream, n)[i]| <= n
    decreases |stream|
  {
    if stream == [] {
    } else if |stream| <= n {
      assert [stream][1..] == [];
      assert Flatten([stream]) == stream + Flatten([]);
    } else {
      ChunksShape(stream[n..], n);
      var rest := Chunks(stream[n..], n);
      assert ([stream[..n]] + rest)[1..] == rest;
      assert stream[..n] + stream[n..] == stream;
    }
  }

  // ----- Writing -----

  /** As much of `view` as there is room for. */
  function Taken(view: seq<Byte>, room: nat): (block: seq<Byte>)
    ensures block <= view && (|block| == room || block == view) && |block| <= room
  {
    if |view| <= room then view else view[..room]
  }

  /** The full parts once `view` follows the open part, and the bytes of the part open then. */
  ghost function Ahead(files: seq<seq<Byte>>, open: seq<Byte>, view: seq<Byte>, n: nat): (seq<seq<Byte>>, seq<Byte>)
    requires n >= 1
  {
    (files + Full(open + view, n), Rest(open + view, n))
  }

  /** One block either fills the open part or is all there is. */
  lemma OneBlock(files: seq<seq<Byte>>, open: seq<Byte>, view: seq<Byte>, n: nat)
    requires |open| < n
    ensures var block := Taken(view, n - |open|); var rest := view[|block|..];
      if |open| + |block| == n then Ahead(files + [open + block], [], rest, n) == Ahead(files, open, view, n)
      else rest == [] && Ahead(files, open + block, rest, n) == Ahead(files, open, view, n)
  {
    var block := Taken(view, n - |open|);
    var rest := view[|block|..];
    if |open| + |block| == n {
      assert (open + view)[..n] == open + block && (open + view)[n..] == rest == [] + rest;
      assert files + ([open + block] + Full(rest, n)) == files + [open + block] + Full(rest, n);
    } else {
      assert open + block + rest == open + view;
    }
  }

  lemma NothingAhead(files: seq<seq<Byte>>, open: seq<Byte>, n: nat)
    requires |open| < n
    ensures Ahead(files, open, [], n) == (files, open)
  {
    assert open + [] == open && Full(open, n) == [];
    assert files + Full(open, n) == files;
  }

  lemma AheadOfAll(files: seq<seq<Byte>>, open: seq<Byte>, data: seq<Byte>, n: nat)
    requires n >= 1
    ensures Ahead(files, open, data, n) == (files + Full(open + data, n), Rest(open + data, n))
  {
  }

  /** Finished files with their entries, and the open one with what was written and hashed of it. */
  class PartWriter {
    const partBytes: nat
    const hash: seq<Byte> -> string
    var files: seq<seq<Byte>>
    var parts: seq<Entry>
    var output: Option<seq<Byte>>
    var digest: seq<Byte>
    var written: nat

    ghost predicate Valid()
      reads this
    {
      && partBytes >= 1
      && |parts| == |files|
      && (forall i :: 0 <= i < |files| ==> parts[i] == Entry(|files[i]|, hash(files[i])))
      && (output.Some? ==> digest == output.value && written == |output.value| && 0 < written < partBytes)
    }

    ghost function Opened(): seq<Byte>
      reads this
    {
      if output.Some? then output.value else []
    }

    constructor (partBytes: nat, hash: seq<Byte> -> string)
      requires partBytes >= 1
      ensures Valid() && files == [] && Opened() == [] && this.partBytes == partBytes && this.hash == hash
    {
      this.partBytes, this.hash := partBytes, hash;
      files, parts, output, digest, written := [], [], None, [], 0;
    }

    /** The parts depend on the bytes written so far alone, not on how they were written. */
    method Write(data: seq<Byte>) returns (count: nat)
      requires Valid()
      modifies this
      ensures Valid() && count == |data|
      ensures files == old(files) + Full(old(Opened()) + data, partBytes)
      ensures Opened() == Rest(old(Opened()) + data, partBytes)
    {
      hide Ahead, Taken;
      var view := data;
      while view != []
        invariant Valid()
        invariant Ahead(files, Opened(), view, partBytes) == Ahead(old(files), old(Opened()), data, partBytes)
        decreases |view|
      {
        ghost var open := Opened();
        OneBlock(files, open, view, partBytes);
        if output == None {
          output, digest, written := Some([]), [], 0;
        }
        var room := partBytes - written;
        var block := Taken(view, room);
        output := Some(output.value + block);
        digest := digest + block;
        written := written + |block|;
        view := view[|block|..];
        assert output.value == open + block;
        if written == partBytes {
          Seal();
        }
      }
      NothingAhead(files, Opened(), partBytes);
      AheadOfAll(old(files), old(Opened()), data, partBytes);
      count := |data|;
    }

    /** Close the part being written, if there is one, and name its own bytes in the manifest. */
    method Seal()
      requires partBytes >= 1 && |parts| == |files|
      requires forall i :: 0 <= i < |files| ==> parts[i] == Entry(|files[i]|, hash(files[i]))
      requires output.Some? ==> digest == output.value && written == |output.value| && written > 0
      modifies this
      ensures Valid() && Opened() == [] && files == Sealed(old(files), old(Opened()))
    {
      if output.Some? {
        files := files + [output.value];
        parts := parts + [Entry(written, hash(digest))];
        output := None;
      }
    }
  }

  // ----- Reading -----

  /** The bytes left of a part being read and of the parts after it. */
  ghost function Left(current: Option<seq<Byte>>, paths: seq<seq<Byte>>): seq<Byte> {
    (if current.Some? then current.value else []) + Flatten(paths)
  }

  lemma NextPart(paths: seq<seq<Byte>>)
    requires paths != []
    ensures Left(None, paths) == Left(Some(paths[0]), paths[1..])
  {
  }

  lemma NextBlock(rest: seq<Byte>, block: seq<Byte>, paths: seq<seq<Byte>>)
    requires block <= rest
    ensures block + Left(Some(rest[|block|..]), paths) == Left(Some(rest), paths)
    ensures rest == [] ==> Left(Some(rest), paths) == Left(None, paths)
    ensures block != [] ==> Left(Some(rest), paths) != []
  {
    assert rest == block + rest[|block|..];
  }

  /** The files not opened yet, and what is left of the open one. */
  class PartReader {
    var paths: seq<seq<Byte>>
    var current: Option<seq<Byte>>

    ghost function Remaining(): seq<Byte>
      reads this
    {
      Left(current, paths)
    }

    constructor (paths: seq<seq<Byte>>)
      ensures Remaining() == Flatten(paths)
    {
      this.paths, current := paths, None;
    }

    /** The next block of the stream, of at most `size` bytes, or up to the part's end when `size` is
        negative; empty only at the stream's end. A read of no bytes also drops what is left. */
    method Read(size: int) returns (block: seq<Byte>)
      modifies this
      ensures size != 0 ==> block + Remaining() == old(Remaining()) && (block == [] <==> old(Remaining()) == [])
      ensures size > 0 ==> |block| <= size
      ensures size == 0 ==> block == [] && Remaining() == []
    {
      hide Left;
      while true
        invariant size != 0 ==> Left(current, paths) == old(Remaining())
        decreases |paths|, current.Some?
      {
        if current == None {
          if paths == [] {
            EndOfParts();
            return [];
          }
          NextPart(paths);
          current, paths := Some(paths[0]), paths[1..];
        }
        var rest := current.value;
        block := if size < 0 then rest else Taken(rest, size);
        NextBlock(rest, block, paths);
        current := Some(rest[|block|..]);
        if block != [] {
          return;
        }
        current := None;
      }
    }
  }

  lemma EndOfParts()
    ensures Left(None, []) == []
  {
  }

  /** Read a stream to its end, in blocks of any sizes. */
  method ReadToEnd(reader: PartReader, sizes: nat -> int) returns (stream: seq<Byte>)
    requires forall i :: sizes(i) != 0
    modifies reader
    ensures stream == old(reader.Remaining()) && reader.Remaining() == []
  {
    stream := [];
    var turn := 0;
    while true
      invariant stream + reader.Remaining() == old(reader.Remaining())
      decreases |reader.Remaining()|
    {
      ghost var left := reader.Remaining();
      var block := reader.Read(sizes(turn));
      turn := turn + 1;
      if block == [] {
        return;
      }
      assert |left| == |block| + |reader.Remaining()|;
      stream := stream + block;
    }
  }

  ghost function Joined(writes: seq<seq<Byte>>): seq<Byte> {
    if writes == [] then [] else Joined(writes[..|writes| - 1]) + writes[|writes| - 1]
  }

  /** Part round trip: any sequence of writes, sealed, leaves the parts of the joined stream, each with its
      own length and digest, and reading them in any blocks gives the stream back. */
  method RoundTrip(writes: seq<seq<Byte>>, partBytes: nat, hash: seq<Byte> -> string, sizes: nat -> int)
    returns (files: seq<seq<Byte>>, entries: seq<Entry>, stream: seq<Byte>)
    requires partBytes >= 1 && forall i :: sizes(i) != 0
    ensures files == Chunks(Joined(writes), partBytes) && stream == Joined(writes)
    ensures |entries| == |files| && forall i :: 0 <= i < |files| ==> entries[i] == Entry(|files[i]|, hash(files[i]))
  {
    var writer := new PartWriter(partBytes, hash);
    var i := 0;
    while i < |writes|
      invariant 0 <= i <= |writes| && writer.Valid() && writer.partBytes == partBytes && writer.hash == hash
      invariant writer.files == Full(Joined(writes[..i]), partBytes)
      invariant writer.Opened() == Rest(Joined(writes[..i]), partBytes)
    {
      CutInPieces(Joined(writes[..i]), writes[i], partBytes);
      assert writes[..i + 1][..i] == writes[..i];
      var _ := writer.Write(writes[i]);
      i := i + 1;
    }
    assert writes[..|writes|] == writes;
    SealedIsChunks(Joined(writes), partBytes);
    ChunksShape(Joined(writes), partBytes);
    writer.Seal();
    files, entries := writer.files, writer.parts;
    var reader := new PartReader(files);
    stream := ReadToEnd(reader, sizes);
  }
}
