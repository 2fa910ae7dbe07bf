/** Reading a line from a socket: js_socket_read_string of js_socket.c, with its buffer that is kept
    from call to call and grows when a line does not fit. */
module SocketReader {
  import opened Sums
  import opened CStrings

  const INITIAL_SIZE: nat := 4096

  /** What the peer sends during a call: nonempty chunks, then an end that recv reports as a
      success without bytes or as a failure. */
  datatype Stream = Stream(chunks: seq<string>, endsOk: bool)

  /** `Overrun`: growing the buffer would write past the new allocation. */
  datatype Read = Line(text: string) | Undefined | Overrun

  function Flat(chunks: seq<string>): string {
    if chunks == [] then [] else Flat(chunks[..|chunks| - 1]) + chunks[|chunks| - 1]
  }

  function Delimiter(user: Option<string>): char {
    match user
    case Some(d) => if d == [] then NUL else d[0]
    case None => '\n'
  }

  /** Everything sent before the first delimiter. */
  function TextOf(chunks: seq<string>, delim: char): string { Flat(chunks)[..IndexOf(Flat(chunks), delim)] }

  /** The text fits the buffer, or the buffer is full at the very end of some chunk. */
  ghost predicate Fits(chunks: seq<string>, delim: char, size: nat) {
    |TextOf(chunks, delim)| <= size || exists j :: 0 <= j <= |chunks| && |Flat(chunks[..j])| == size
  }

  /** What a call should return: a nonempty text that was ended by a delimiter or by the end of a
      stream that ended well. */
  function Expected(s: Stream, delim: char): Read {
    var text := TextOf(s.chunks, delim);
    if text != [] && (delim in Flat(s.chunks) || s.endsOk) then Line(text) else Undefined
  }

  lemma {:induction false} FlatSplit(chunks: seq<string>, n: nat)
    requires n <= |chunks|
    ensures Flat(chunks) == Flat(chunks[..n]) + Flat(chunks[n..])
    decreases |chunks|
  {
    if n == |chunks| {
      assert chunks[..n] == chunks;
    } else {
      var m := |chunks| - 1;
      FlatSplit(chunks[..m], n);
      assert chunks[..m][..n] == chunks[..n];
      assert chunks[..m][n..] == chunks[n..][..m - n];
    }
  }

  lemma FlatNext(chunks: seq<string>, n: nat)
    requires n < |chunks|
    ensures Flat(chunks[..n + 1]) == Flat(chunks[..n]) + chunks[n]
  {
    assert chunks[..n + 1][..n] == chunks[..n];
  }

  lemma BoundariesGrow(chunks: seq<string>, i: nat, j: nat)
    requires i <= j <= |chunks|
    ensures |Flat(chunks[..i])| <= |Flat(chunks[..j])|
  {
    FlatSplit(chunks[..j], i);
    assert chunks[..j][..i] == chunks[..i];
  }

  /** The first delimiter of three pieces, the first of which has none. */
  lemma FirstInMiddle(before: string, chunk: string, after: string, delim: char)
    requires delim !in before
    ensures
      var all, i := before + chunk + after, IndexOf(chunk, delim);
      && |before| + i <= IndexOf(all, delim)
      && all[..|before| + i] == before + chunk[..i]
      && (i < |chunk| ==> IndexOf(all, delim) == |before| + i)
  {
    var all, i := before + chunk + after, IndexOf(chunk, delim);
    assert forall j :: 0 <= j < |before| ==> all[j] == before[j];
    assert forall j :: |before| <= j < |before| + |chunk| ==> all[j] == chunk[j - |before|];
    if i < |chunk| { IndexUnique(all, delim, |before| + i); }
  }

  /** While no delimiter came in the first n chunks, the text goes at least up to the first
      delimiter of the next one; it ends there if there is one. */
  lemma TextReaches(chunks: seq<string>, delim: char, n: nat)
    requires n < |chunks| && delim !in Flat(chunks[..n])
    ensures
      var piece := chunks[n][..IndexOf(chunks[n], delim)];
      && Flat(chunks[..n]) + piece <= TextOf(chunks, delim)
      && (delim in chunks[n] ==> Flat(chunks[..n]) + piece == TextOf(chunks, delim) && delim in Flat(chunks))
      && (delim !in chunks[n] ==> piece == chunks[n])
  {
    var before, chunk, after := Flat(chunks[..n]), chunks[n], Flat(chunks[n + 1..]);
    FlatNext(chunks, n);
    FlatSplit(chunks, n + 1);
    assert Flat(chunks) == before + chunk + after;
    FirstInMiddle(before, chunk, after, delim);
  }

  lemma NoDelimiterAtAll(chunks: seq<string>, delim: char)
    requires delim !in Flat(chunks)
    ensures TextOf(chunks, delim) == Flat(chunks)
  {
    IndexUnique(Flat(chunks), delim, |Flat(chunks)|);
  }

  /** What a call leaves for the next one: the chunks after the one with the delimiter. The rest of
      that chunk is lost, so lines arrive unharmed exactly when no chunk goes on behind one. */
  lemma RestIsLost(chunks: seq<string>, delim: char, n: nat)
    requires n < |chunks| && delim !in Flat(chunks[..n]) && delim in chunks[n]
    ensures
      var lost := chunks[n][IndexOf(chunks[n], delim) + 1..];
      Flat(chunks) == TextOf(chunks, delim) + [delim] + lost + Flat(chunks[n + 1..])
  {
    TextReaches(chunks, delim, n);
    FlatNext(chunks, n);
    FlatSplit(chunks, n + 1);
    CutAt(Flat(chunks[..n]), chunks[n], Flat(chunks[n + 1..]), IndexOf(chunks[n], delim));
  }

  lemma CutAt(before: string, chunk: string, after: string, i: nat)
    requires i < |chunk|
    ensures before + chunk + after == before + chunk[..i] + [chunk[i]] + chunk[i + 1..] + after
  {
    assert chunk == chunk[..i] + [chunk[i]] + chunk[i + 1..];
  }

  /** A piece that does not fit and begins before the buffer is full. */
  lemma Misfit(chunks: seq<string>, delim: char, n: nat, size: nat)
    requires n < |chunks| && delim !in Flat(chunks[..n])
    requires |Flat(chunks[..n])| < size < |Flat(chunks[..n])| + IndexOf(chunks[n], delim)
    ensures !Fits(chunks, delim, size)
  {
    TextReaches(chunks, delim, n);
    FlatNext(chunks, n);
    forall j | 0 <= j <= |chunks|
      ensures |Flat(chunks[..j])| != size
    {
      if j <= n { BoundariesGrow(chunks, j, n); } else { BoundariesGrow(chunks, n + 1, j); }
    }
  }

  /** Chunks that fill the first buffer exactly fit, however long the line is. */
  lemma FullChunksFit(chunks: seq<string>, delim: char)
    requires |chunks| >= 4 && forall j :: 0 <= j < 4 ==> |chunks[j]| == 1024
    ensures Fits(chunks, delim, INITIAL_SIZE)
  {
    FlatNext(chunks, 0);
    FlatNext(chunks, 1);
    FlatNext(chunks, 2);
    FlatNext(chunks, 3);
    assert chunks[..0] == [];
    assert |Flat(chunks[..4])| == INITIAL_SIZE;
  }

  /** Chunks of 1000 bytes do not: the fifth one straddles the end of the buffer. */
  lemma StraddlingChunk() returns (chunks: seq<string>)
    ensures forall j :: 0 <= j < |chunks| ==> 0 < |chunks[j]| <= 1024
    ensures !Fits(chunks, '\n', INITIAL_SIZE)
  {
    var c := seq(1000, _ => 'a');
    chunks := [c, c, c, c, c];
    assert '\n' !in c;
    assert chunks[..0] == [];
    FlatNext(chunks, 0);
    FlatNext(chunks, 1);
    FlatNext(chunks, 2);
    FlatNext(chunks, 3);
    assert |Flat(chunks[..4])| == 4000;
    IndexUnique(c, '\n', 1000);
    Misfit(chunks, '\n', 4, INITIAL_SIZE);
  }

  // ---- the loop over the chunks ----------------------------------------------------------

  /** Where a call stands: the chunks used, whether the last of them had the delimiter, the bytes
      stored and the size of the buffer, which was `size` at first. */
  datatype Progress = Progress(used: nat, found: bool, stored: string, bufferSize: nat)

  ghost predicate Grown(chunks: seq<string>, p: Progress, size: nat)
    requires p.used <= |chunks|
  {
    size < p.bufferSize == |p.stored| && exists j :: 0 <= j <= p.used && |Flat(chunks[..j])| == size
  }

  ghost predicate OnTrack(chunks: seq<string>, delim: char, size: nat, p: Progress) {
    && p.used <= |chunks| && |p.stored| <= p.bufferSize
    && (size == p.bufferSize || Grown(chunks, p, size))
    && (if p.found then
          p.used > 0 && delim in chunks[p.used - 1] && delim in Flat(chunks) && p.stored == TextOf(chunks, delim)
        else
          p.stored == Flat(chunks[..p.used]) && delim !in p.stored)
  }

  function Larger(a: nat, b: nat): nat { if a < b then b else a }

  lemma StoredPiece(chunks: seq<string>, delim: char, size: nat, p: Progress)
    requires OnTrack(chunks, delim, size, p) && !p.found && p.used < |chunks|
    requires
      var stored := p.stored + chunks[p.used][..IndexOf(chunks[p.used], delim)];
      |stored| <= p.bufferSize || |p.stored| == p.bufferSize
    ensures
      var stored := p.stored + chunks[p.used][..IndexOf(chunks[p.used], delim)];
      OnTrack(chunks, delim, size, Progress(p.used + 1, delim in chunks[p.used], stored, Larger(p.bufferSize, |stored|)))
  {
    TextReaches(chunks, delim, p.used);
    FlatNext(chunks, p.used);
    if size == p.bufferSize == |p.stored| {
      assert |Flat(chunks[..p.used])| == size;
    }
  }

  lemma RefusedPiece(chunks: seq<string>, delim: char, size: nat, p: Progress)
    requires OnTrack(chunks, delim, size, p) && !p.found && p.used < |chunks|
    requires |p.stored| < p.bufferSize < |p.stored| + IndexOf(chunks[p.used], delim)
    ensures !Fits(chunks, delim, size)
  {
    Misfit(chunks, delim, p.used, size);
  }

  lemma AllStored(chunks: seq<string>, delim: char, size: nat, p: Progress)
    requires OnTrack(chunks, delim, size, p) && (p.found || p.used == |chunks|)
    ensures p.stored == TextOf(chunks, delim) && Fits(chunks, delim, size)
    ensures p.found <==> delim in Flat(chunks)
  {
    if !p.found {
      assert chunks[..p.used] == chunks;
      NoDelimiterAtAll(chunks, delim);
    }
  }

  class JsSocket {
    var bufferSize: nat
    var readBuffer: array?<char>

    ghost predicate Valid()
      reads this
    {
      readBuffer != null ==> readBuffer.Length == bufferSize
    }

    /** The size the buffer has when a call starts to receive. */
    function SizeAtCall(): nat
      reads this
    {
      if readBuffer == null then INITIAL_SIZE else bufferSize
    }

    constructor ()
      ensures Valid() && readBuffer == null
    {
      bufferSize, readBuffer := 0, null;
    }

    /** The scan of a chunk for the delimiter. */
    method FindDelimiter(chunk: string, delim: char) returns (found: bool, len: nat)
      ensures len == IndexOf(chunk, delim) && (found <==> delim in chunk)
    {
      len := 0;
      while len < |chunk| && chunk[len] != delim
        invariant len <= |chunk| && forall j :: 0 <= j < len ==> chunk[j] != delim
      {
        len := len + 1;
      }
      found := len < |chunk|;
      IndexUnique(chunk, delim, len);
    }

    /** Stores a piece behind the `ofs` bytes already there. When it does not fit, the whole old
        buffer is copied and the piece is put behind that, in an allocation of `ofs + |piece|`
        bytes; so this works exactly if the old buffer is full. */
    method Store(ofs: nat, piece: string) returns (ok: bool)
      requires Valid() && readBuffer != null && ofs <= bufferSize
      modifies this, readBuffer
      ensures Valid() && readBuffer != null && (readBuffer == old(readBuffer) || fresh(readBuffer))
      ensures ok <==> ofs + |piece| <= old(bufferSize) || ofs == old(bufferSize)
      ensures ok ==> bufferSize == (if ofs + |piece| > old(bufferSize) then ofs + |piece| else old(bufferSize))
      ensures ok ==> readBuffer[..ofs + |piece|] == old(readBuffer[..ofs]) + piece
      ensures !ok ==> bufferSize == old(bufferSize)
    {
      var total := ofs + |piece|;
      if total > bufferSize {
        if bufferSize + |piece| > total { return false; }
        var newBuf := new char[total];
        var oldBuf, size := readBuffer, bufferSize;
        forall k | 0 <= k < size { newBuf[k] := oldBuf[k]; }
        forall k | 0 <= k < |piece| { newBuf[size + k] := piece[k]; }
        bufferSize, readBuffer := total, newBuf;
      } else {
        var buf := readBuffer;
        forall k | 0 <= k < |piece| { buf[ofs + k] := piece[k]; }
      }
      ok := true;
    }

    /** One turn of the loop, on the chunk just received. */
    method TakeChunk(chunks: seq<string>, delim: char, ghost size: nat, used: nat, total: nat)
      returns (ok: bool, found: bool, newTotal: nat)
      requires Valid() && readBuffer != null && total <= bufferSize && used < |chunks|
      requires OnTrack(chunks, delim, size, Progress(used, false, readBuffer[..total], bufferSize))
      modifies this, readBuffer
      ensures Valid() && readBuffer != null && (readBuffer == old(readBuffer) || fresh(readBuffer))
      ensures newTotal <= bufferSize && bufferSize >= old(bufferSize) && (found <==> delim in chunks[used])
      ensures
        if ok then OnTrack(chunks, delim, size, Progress(used + 1, found, readBuffer[..newTotal], bufferSize))
        else !Fits(chunks, delim, size)
    {
      ghost var p := Progress(used, false, readBuffer[..total], bufferSize);
      var len;
      found, len := FindDelimiter(chunks[used], delim);
      newTotal := total;
      ok := Store(total, chunks[used][..len]);
      if ok {
        StoredPiece(chunks, delim, size, p);
        newTotal := total + len;
      } else {
        RefusedPiece(chunks, delim, size, p);
      }
    }

    /** js_socket_read_string: it fails to keep to the buffer exactly if the text does not fit and
        no chunk ends where the buffer does; otherwise it returns what it should. The buffer never
        gets smaller. `used` chunks are consumed, the last of them being the first with the
        delimiter; what follows the delimiter in that chunk is lost. */
    method ReadString(user: Option<string>, s: Stream) returns (r: Read, used: nat)
      requires Valid() && forall j :: 0 <= j < |s.chunks| ==> s.chunks[j] != []
      modifies this, readBuffer
      ensures Valid() && bufferSize >= old(SizeAtCall())
      ensures r == Overrun <==> !Fits(s.chunks, Delimiter(user), old(SizeAtCall()))
      ensures r != Overrun ==> r == Expected(s, Delimiter(user))
      ensures r != Overrun ==> used <= |s.chunks| && (Delimiter(user) in Flat(s.chunks) <==>
          used > 0 && Delimiter(user) in s.chunks[used - 1])
      ensures r != Overrun && used < |s.chunks| ==> Delimiter(user) in Flat(s.chunks)
      ensures forall j :: 0 <= j < used - 1 && j < |s.chunks| ==> Delimiter(user) !in s.chunks[j]
    {
      if readBuffer == null {
        bufferSize := INITIAL_SIZE;
        readBuffer := new char[bufferSize];
      }
      ghost var size := bufferSize;
      var delim := Delimiter(user);
      var total: nat, found, ok := 0, false, true;
      used := 0;
      while used < |s.chunks| && !found && ok
        invariant Valid() && readBuffer != null && (readBuffer == old(readBuffer) || fresh(readBuffer))
        invariant used <= |s.chunks| && total <= bufferSize && bufferSize >= size
        invariant ok ==> OnTrack(s.chunks, delim, size, Progress(used, found, readBuffer[..total], bufferSize))
        invariant !ok ==> !Fits(s.chunks, delim, size)
        invariant forall j :: 0 <= j < used - 1 ==> delim !in s.chunks[j]
        invariant ok && !found && used > 0 ==> delim !in s.chunks[used - 1]
      {
        ok, found, total := TakeChunk(s.chunks, delim, size, used, total);
        used := used + 1;
      }
      if !ok { return Overrun, used; }
      AllStored(s.chunks, delim, size, Progress(used, found, readBuffer[..total], bufferSize));
      r := if (found || s.endsOk) && total > 0 then Line(readBuffer[..total]) else Undefined;
    }
  }
}
