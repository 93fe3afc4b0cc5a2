/**
 * What `SwiftStore.add` does to the object store, as functions: the names of
 * the chunk objects, the bytes each chunk receives, the chunk loop with its
 * clean-up of stale chunks, and the whole of `add` from the container check
 * to the manifest.
 */
module SwiftChunks {
  import opened Values
  import opened ObjectStore

  function Min(a: int, b: int): int
  {
    if a < b then a else b
  }

  // ----- chunk names ----------------------------------------------------------

  /** A leading zero does not change the number. */
  lemma {:induction false} ParseLeadingZero(s: string)
    ensures ParseDecimal(['0'] + s) == ParseDecimal(s)
    decreases |s|
  {
    var t := ['0'] + s;
    if s != [] {
      assert t[..|t| - 1] == ['0'] + s[..|s| - 1];
      ParseLeadingZero(s[..|s| - 1]);
    } else {
      assert t[..0] == [];
    }
  }

  /** `s` with zeros in front, up to `width` characters. */
  function PadLeft(s: string, width: nat): string
    decreases width - |s|
  {
    if |s| >= width then s else PadLeft(['0'] + s, width)
  }

  lemma {:induction false} ParsePadLeft(s: string, width: nat)
    ensures ParseDecimal(PadLeft(s, width)) == ParseDecimal(s)
    decreases width - |s|
  {
    if |s| < width {
      ParsePadLeft(['0'] + s, width);
      ParseLeadingZero(s);
    }
  }

  /** `"%s-%05d" % (image_id, chunk_id)`: the name of chunk `n` of an image. */
  function ChunkName(id: string, n: nat): string
  {
    id + "-" + PadLeft(NatToString(n), 5)
  }

  /** The number of a chunk can be read back from its name. */
  lemma ParseChunkNumber(id: string, n: nat)
    ensures ParseDecimal(ChunkName(id, n)[|id| + 1..]) == n
  {
    assert ChunkName(id, n)[|id| + 1..] == PadLeft(NatToString(n), 5);
    ParsePadLeft(NatToString(n), 5);
    ParseNatToString(n);
  }

  /** Different chunk numbers give different names, so no chunk of an upload overwrites another. */
  lemma ChunkNamesDiffer(id: string, i: nat, j: nat)
    requires i != j
    ensures ChunkName(id, i) != ChunkName(id, j)
  {
    ParseChunkNumber(id, i);
    ParseChunkNumber(id, j);
  }

  /** A chunk name is longer than the image id, so the manifest never overwrites a chunk. */
  lemma ChunkNameIsNotTheId(id: string, n: nat)
    ensures ChunkName(id, n) != id
  {
    assert |ChunkName(id, n)| > |id|;
  }

  /** The names of chunks `n`, `n + 1`, ..., `n + k - 1`. */
  function ChunkNames(id: string, n: nat, k: nat): (names: seq<string>)
    ensures |names| == k
    decreases k
  {
    if k == 0 then [] else [ChunkName(id, n)] + ChunkNames(id, n + 1, k - 1)
  }

  /** Name `i` of the list is the name of chunk `n + i`. */
  lemma {:induction false} ChunkNamesAt(id: string, n: nat, k: nat, i: nat)
    requires i < k
    ensures ChunkNames(id, n, k)[i] == ChunkName(id, n + i)
    decreases i
  {
    if i > 0 {
      ChunkNamesAt(id, n + 1, k - 1, i - 1);
      assert (n + 1) + (i - 1) == n + i;
    }
  }

  // ----- chunk contents -----------------------------------------------------------

  /** `d` cut into consecutive pieces of `c` bytes, the last one possibly shorter. */
  function Slices(d: seq<bv8>, c: nat): seq<seq<bv8>>
    requires c > 0
    decreases |d|
  {
    if d == [] then [] else [d[..Min(c, |d|)]] + Slices(d[Min(c, |d|)..], c)
  }

  /** Every piece but the last has exactly `c` bytes; the number of pieces is the least `k` with `k * c >= |d|`. */
  lemma {:induction false} SlicesCount(d: seq<bv8>, c: nat)
    requires c > 0
    ensures d == [] <==> Slices(d, c) == []
    ensures |Slices(d, c)| * c >= |d|
    ensures |Slices(d, c)| > 0 ==> (|Slices(d, c)| - 1) * c < |d|
    decreases |d|
  {
    if d != [] {
      var k := Min(c, |d|);
      var m := |Slices(d[k..], c)|;
      SlicesCount(d[k..], c);
      assert |Slices(d, c)| == m + 1;
      assert (m + 1) * c == m * c + c;
      if |d| <= c {
        assert m == 0;
      }
    }
  }

  /** Piece `i` holds bytes `i * c` up to `(i + 1) * c`, or up to the end for the last piece. */
  lemma {:induction false} SliceAt(d: seq<bv8>, c: nat, i: nat)
    requires c > 0 && i < |Slices(d, c)|
    ensures i * c < |d|
    ensures Slices(d, c)[i] == d[i * c .. Min((i + 1) * c, |d|)]
    decreases i
  {
    var k := Min(c, |d|);
    var tail := d[k..];
    assert Slices(d, c) == [d[..k]] + Slices(tail, c);
    if i > 0 {
      assert Slices(d, c)[i] == Slices(tail, c)[i - 1];
      assert k == c && |tail| == |d| - c;
      SliceAt(tail, c, i - 1);
      var lo, p, q := (i - 1) * c, i * c, (i + 1) * c;
      MulSucc(i - 1, c);
      MulSucc(i, c);
      assert p == lo + c && q == p + c;
      var hi := Min(p, |tail|);
      assert Slices(tail, c)[i - 1] == tail[lo..hi];
      SliceShift(d, c, lo, hi);
    }
  }

  lemma MulSucc(n: nat, c: nat)
    ensures (n + 1) * c == n * c + c
  {
  }

  /** A slice of `d` without its first `c` bytes is the slice of `d` shifted by `c`. */
  lemma SliceShift(d: seq<bv8>, c: nat, lo: nat, hi: nat)
    requires c <= |d| && lo <= hi <= |d| - c
    ensures d[c..][lo..hi] == d[lo + c..hi + c]
  {
  }

  // ----- the chunk loop ------------------------------------------------------------

  /** `_delete_stale_chunks`: each chunk is deleted in turn; a delete that fails is passed over. */
  function DeleteAll(st: Containers, refused: map<Request, int>, c: string, names: seq<string>): Containers
    decreases |names|
  {
    if names == [] then st
    else Delete(DeleteAll(st, refused, c, names[..|names| - 1]), refused, c, names[|names| - 1]).after
  }

  /** The containers with the given objects of container `c` removed. */
  function RemoveNames(st: Containers, c: string, names: set<string>): Containers
  {
    if c in st then st[c := st[c] - names] else st
  }

  /**
   * The clean-up removes exactly the listed chunks whose delete the store
   * does not refuse; everything else in the store stays as it was.
   */
  lemma {:induction false} DeleteAllRemoves(st: Containers, refused: map<Request, int>, c: string, names: seq<string>)
    ensures DeleteAll(st, refused, c, names) == RemoveNames(st, c, set nm | nm in names && DeleteObject(c, nm) !in refused)
    decreases |names|
  {
    var all := set nm | nm in names && DeleteObject(c, nm) !in refused;
    if names == [] {
      assert all == {};
      RemoveNothing(st, c);
    } else {
      var init := names[..|names| - 1];
      var last := names[|names| - 1];
      DeleteAllRemoves(st, refused, c, init);
      var gone := set nm | nm in init && DeleteObject(c, nm) !in refused;
      assert names == init + [last];
      DeleteOneRemoves(st, refused, c, gone, last);
      if DeleteObject(c, last) in refused {
        assert all == gone;
      } else {
        assert all == gone + {last};
      }
    }
  }

  lemma RemoveNothing(st: Containers, c: string)
    ensures RemoveNames(st, c, {}) == st
  {
    if c in st {
      assert st[c] - {} == st[c];
    }
  }

  /** Deleting one more object after those the clean-up has removed so far. */
  lemma DeleteOneRemoves(st: Containers, refused: map<Request, int>, c: string, gone: set<string>, last: string)
    ensures DeleteObject(c, last) in refused ==>
      Delete(RemoveNames(st, c, gone), refused, c, last).after == RemoveNames(st, c, gone)
    ensures DeleteObject(c, last) !in refused ==>
      Delete(RemoveNames(st, c, gone), refused, c, last).after == RemoveNames(st, c, gone + {last})
  {
    var mid := RemoveNames(st, c, gone);
    if c in st && DeleteObject(c, last) !in refused {
      if last in mid[c] {
        assert mid[c] - {last} == st[c] - (gone + {last});
      } else {
        assert mid[c] == st[c] - (gone + {last});
      }
    }
  }

  /** What stays fixed through one upload: the refusals, the container, the image id, the image size (0 when unknown) and the chunk size. */
  datatype Upload = Upload(refused: map<Request, int>, c: string, id: string, size: nat, chunk: nat)

  /**
   * Where the loop stands before a chunk: the containers, `chunk_id`,
   * `written_chunks`, the image data not read yet, `combined_chunks_size`
   * and the bytes read so far.
   */
  datatype Cursor = Cursor(store: Containers, n: nat, written: seq<string>, rest: seq<bv8>, combined: nat, read: seq<bv8>)

  /** Where the chunk loop ends: the containers, the error it raised, `written_chunks`, and the bytes read. */
  datatype LoopEnd = LoopEnd(store: Containers, error: Option<Error>, written: seq<string>, read: seq<bv8>)

  /** One pass through the loop body: on to the next chunk, or out of the loop. */
  datatype Iteration = Next(cursor: Cursor) | Done(end: LoopEnd)

  /** A known size is never exceeded. */
  predicate Within(u: Upload, k: Cursor)
  {
    u.size != 0 ==> k.combined <= u.size
  }

  /** `chunk_size` for the next chunk: the configured size, cut down to what is left of a known image size. */
  function ChunkSize(u: Upload, k: Cursor): nat
    requires Within(u, k)
  {
    if u.size != 0 && u.chunk > u.size - k.combined then u.size - k.combined else u.chunk
  }

  /** The bytes the `ChunkReader` of the next chunk yields. */
  function Piece(u: Upload, k: Cursor): seq<bv8>
    requires Within(u, k)
  {
    k.rest[..Min(ChunkSize(u, k), |k.rest|)]
  }

  /**
   * One pass through the `while True` loop of `add`.  With a known size
   * the loop ends once `combined_chunks_size` reaches it.  A chunk PUT the
   * store refuses deletes the chunks written so far and raises; the
   * request has already read its chunk through the `ChunkReader`.  A chunk that reads no bytes is deleted
   * again and ends the loop; a refusal of that delete is raised as it is.
   */
  function Turn(u: Upload, k: Cursor): (t: Iteration)
    requires Within(u, k)
    ensures t.Next? ==> Within(u, t.cursor) && |t.cursor.rest| < |k.rest|
  {
    if u.size != 0 && u.size == k.combined then Done(LoopEnd(k.store, None, k.written, k.read))
    else
      var piece := Piece(u, k);
      var name := ChunkName(u.id, k.n);
      var put := Put(k.store, u.refused, u.c, name, StoredObject(piece, None));
      if put.outcome.Fail? then
        Done(LoopEnd(DeleteAll(k.store, u.refused, u.c, k.written), Some(put.outcome.error), k.written, k.read + piece))
      else if piece == [] then
        var del := Delete(put.after, u.refused, u.c, name);
        Done(LoopEnd(del.after, if del.outcome.Fail? then Some(del.outcome.error) else None, k.written + [name], k.read))
      else
        Next(Cursor(put.after, k.n + 1, k.written + [name], k.rest[|piece|..], k.combined + |piece|, k.read + piece))
  }

  /** The chunk loop from cursor `k` to its end. */
  function ChunkLoop(u: Upload, k: Cursor): LoopEnd
    requires Within(u, k)
    decreases 2 * |k.rest| + 1
  {
    Proceed(u, Turn(u, k))
  }

  /** Where the loop goes after a turn: out, or on from the next cursor. */
  function Proceed(u: Upload, t: Iteration): LoopEnd
    requires t.Next? ==> Within(u, t.cursor)
    decreases if t.Next? then 2 * |t.cursor.rest| + 2 else 0
  {
    match t
    case Done(end) => end
    case Next(k') => ChunkLoop(u, k')
  }

  /** How many bytes the loop reads from `rest`: all of them for an unknown size, else at most what is left. */
  function Extent(u: Upload, k: Cursor): nat
    requires Within(u, k)
  {
    if u.size == 0 then |k.rest| else Min(u.size - k.combined, |k.rest|)
  }

  /** How many bytes of the image data an upload reads: all of them for an unknown size, else at most `size`. */
  function Consumed(data: seq<bv8>, size: nat): nat
  {
    if size == 0 then |data| else Min(size, |data|)
  }

  /** No request on container `c` is refused. */
  predicate Unrefused(refused: map<Request, int>, c: string)
  {
    forall r :: r in refused ==> r.container != c
  }

  /** Each turn writes chunk `n` and, going on, moves to chunk `n + 1`. */
  lemma TurnNames(u: Upload, k: Cursor)
    requires Within(u, k)
    ensures Turn(u, k).Next? ==>
      && Turn(u, k).cursor.n == k.n + 1
      && Turn(u, k).cursor.written == k.written + [ChunkName(u.id, k.n)]
    ensures Turn(u, k).Done? ==>
      Turn(u, k).end.written == k.written || Turn(u, k).end.written == k.written + [ChunkName(u.id, k.n)]
  {
  }

  /** One turn when nothing on the container is refused. */
  lemma TurnUnrefused(u: Upload, k: Cursor)
    requires Within(u, k) && u.c in k.store && Unrefused(u.refused, u.c)
    ensures var name := ChunkName(u.id, k.n);
      var piece := Piece(u, k);
      if u.size != 0 && u.size == k.combined then Turn(u, k) == Done(LoopEnd(k.store, None, k.written, k.read))
      else if piece == [] then
        Turn(u, k) == Done(LoopEnd(k.store[u.c := k.store[u.c] - {name}], None, k.written + [name], k.read))
      else
        Turn(u, k) == Next(Cursor(k.store[u.c := k.store[u.c][name := StoredObject(piece, None)]], k.n + 1,
                                  k.written + [name], k.rest[|piece|..], k.combined + |piece|, k.read + piece))
  {
    var name := ChunkName(u.id, k.n);
    var piece := Piece(u, k);
    if !(u.size != 0 && u.size == k.combined) {
      assert PutObject(u.c, name) !in u.refused;
      var put := Put(k.store, u.refused, u.c, name, StoredObject(piece, None));
      if piece == [] {
        assert DeleteObject(u.c, name) !in u.refused;
        assert put.after[u.c] - {name} == k.store[u.c] - {name};
      }
    }
  }

  /**
   * `written_chunks` grows by the consecutive chunk names from `n` on, on
   * every path: the loop numbers its chunks 1, 2, 3, ... without gaps.
   */
  lemma {:induction false} ChunkLoopNames(u: Upload, k: Cursor)
    requires Within(u, k)
    ensures Numbered(ChunkLoop(u, k).written, k.written, u.id, k.n)
    decreases |k.rest|
  {
    TurnNames(u, k);
    if Turn(u, k).Next? {
      ChunkLoopNames(u, Turn(u, k).cursor);
      assert ChunkLoop(u, k) == ChunkLoop(u, Turn(u, k).cursor);
      NumberedStep(ChunkLoop(u, k).written, k.written, u.id, k.n);
    } else {
      NumberedEnd(k.written, u.id, k.n);
    }
  }

  /** `names` is `base` followed by the names of chunks `n`, `n + 1`, ... */
  predicate Numbered(names: seq<string>, base: seq<string>, id: string, n: nat)
  {
    |names| >= |base| && names == base + ChunkNames(id, n, |names| - |base|)
  }

  lemma NumberedStep(names: seq<string>, base: seq<string>, id: string, n: nat)
    requires Numbered(names, base + [ChunkName(id, n)], id, n + 1)
    ensures Numbered(names, base, id, n)
  {
    var j := |names| - |base| - 1;
    assert ChunkNames(id, n, j + 1) == [ChunkName(id, n)] + ChunkNames(id, n + 1, j);
    assert (base + [ChunkName(id, n)]) + ChunkNames(id, n + 1, j) == base + ([ChunkName(id, n)] + ChunkNames(id, n + 1, j));
  }

  lemma NumberedEnd(base: seq<string>, id: string, n: nat)
    ensures Numbered(base, base, id, n)
    ensures Numbered(base + [ChunkName(id, n)], base, id, n)
  {
    assert base + ChunkNames(id, n, 0) == base;
    assert ChunkNames(id, n, 1) == [ChunkName(id, n)];
  }

  /**
   * With nothing on container `c` refused and a positive chunk size, the
   * loop raises nothing and reads the bytes it should: all of the data
   * for an unknown size, the first `size` bytes (or all, if there are
   * fewer) for a known size.
   */
  lemma {:induction false} ChunkLoopReads(u: Upload, k: Cursor)
    requires Within(u, k) && u.c in k.store && Unrefused(u.refused, u.c)
    requires u.chunk > 0
    ensures ChunkLoop(u, k).error.None?
    ensures ChunkLoop(u, k).read == k.read + k.rest[..Extent(u, k)]
    ensures u.c in ChunkLoop(u, k).store
    decreases |k.rest|
  {
    TurnReads(u, k);
    if Turn(u, k).Next? {
      ChunkLoopReads(u, Turn(u, k).cursor);
    }
  }

  /** A prefix of `a + b` elements is the prefix of `a` followed by `b` elements of the rest. */
  lemma PrefixSplit(s: seq<bv8>, a: nat, b: nat)
    requires a + b <= |s|
    ensures s[..a + b] == s[..a] + s[a..][..b]
  {
    assert forall i :: 0 <= i < a + b ==> s[..a + b][i] == (s[..a] + s[a..][..b])[i];
  }

  /** One turn of `ChunkLoopReads`: the bytes read plus the bytes still to read stay the same. */
  lemma TurnReads(u: Upload, k: Cursor)
    requires Within(u, k) && u.c in k.store && Unrefused(u.refused, u.c)
    requires u.chunk > 0
    ensures Turn(u, k).Done? ==>
      && Turn(u, k).end.error.None? && u.c in Turn(u, k).end.store
      && Turn(u, k).end.read == k.read + k.rest[..Extent(u, k)]
    ensures Turn(u, k).Next? ==>
      && u.c in Turn(u, k).cursor.store
      && Turn(u, k).cursor.read + Turn(u, k).cursor.rest[..Extent(u, Turn(u, k).cursor)] == k.read + k.rest[..Extent(u, k)]
  {
    TurnUnrefused(u, k);
    if Turn(u, k).Next? {
      var k' := Turn(u, k).cursor;
      var piece := Piece(u, k);
      assert k'.rest == k.rest[|piece|..] && piece == k.rest[..|piece|];
      assert Extent(u, k) == |piece| + Extent(u, k');
      PrefixSplit(k.rest, |piece|, Extent(u, k'));
    } else {
      assert k.rest[..Extent(u, k)] == [];
    }
  }

  /**
   * The loop touches only container `c`, and in it only objects named as
   * chunks `n`, `n + 1`, ... of the image, as long as nothing on `c` is
   * refused.
   */
  lemma {:induction false} ChunkLoopKeepsOthers(u: Upload, k: Cursor, other: string)
    requires Within(u, k) && u.c in k.store && Unrefused(u.refused, u.c)
    requires forall m: nat :: m >= k.n ==> other != ChunkName(u.id, m)
    ensures u.c in ChunkLoop(u, k).store
    ensures ChunkLoop(u, k).store == k.store[u.c := ChunkLoop(u, k).store[u.c]]
    ensures other in ChunkLoop(u, k).store[u.c] <==> other in k.store[u.c]
    ensures other in k.store[u.c] ==> ChunkLoop(u, k).store[u.c][other] == k.store[u.c][other]
    decreases |k.rest|
  {
    TurnUnrefused(u, k);
    assert other != ChunkName(u.id, k.n);
    match Turn(u, k)
    case Done(end) =>
    case Next(k') =>
      ChunkLoopKeepsOthers(u, k', other);
  }

  /** No chunk name from `n` on is the name of an earlier chunk. */
  lemma LaterChunksDiffer(id: string, n: nat)
    ensures forall m: nat :: m >= n + 1 ==> ChunkName(id, n) != ChunkName(id, m)
  {
    forall m: nat | m >= n + 1 ensures ChunkName(id, n) != ChunkName(id, m) {
      ChunkNamesDiffer(id, n, m);
    }
  }

  /** The object of the given name, if there is one. */
  function Find(objects: map<string, StoredObject>, name: string): Option<StoredObject>
  {
    if name in objects then Some(objects[name]) else None
  }

  /** Chunks `n`, `n + 1`, ... of the image hold the given pieces, in order. */
  predicate HoldsPieces(objects: map<string, StoredObject>, id: string, n: nat, pieces: seq<seq<bv8>>)
    decreases |pieces|
  {
    pieces != [] ==>
      && ChunkName(id, n) in objects && objects[ChunkName(id, n)] == StoredObject(pieces[0], None)
      && HoldsPieces(objects, id, n + 1, pieces[1..])
  }

  /** Chunk `n + i` holds piece `i`. */
  lemma {:induction false} HoldsPieceAt(objects: map<string, StoredObject>, id: string, n: nat, pieces: seq<seq<bv8>>, i: nat)
    requires HoldsPieces(objects, id, n, pieces) && i < |pieces|
    ensures Find(objects, ChunkName(id, n + i)) == Some(StoredObject(pieces[i], None))
    decreases i
  {
    var m := n + i;
    if i == 0 {
      assert m == n;
      assert Find(objects, ChunkName(id, n)) == Some(StoredObject(pieces[0], None));
    } else {
      HoldsPieceAt(objects, id, n + 1, pieces[1..], i - 1);
      assert pieces[1..][i - 1] == pieces[i];
      assert (n + 1) + (i - 1) == m;
    }
  }


  /** Writing the image id itself leaves the chunks as they are. */
  lemma {:induction false} HoldsPiecesBesideId(objects: map<string, StoredObject>, id: string, n: nat,
                                               pieces: seq<seq<bv8>>, obj: StoredObject)
    requires HoldsPieces(objects, id, n, pieces)
    ensures HoldsPieces(objects[id := obj], id, n, pieces)
    decreases |pieces|
  {
    if pieces != [] {
      ChunkNameIsNotTheId(id, n);
      HoldsPiecesBesideId(objects, id, n + 1, pieces[1..], obj);
    }
  }

  /** After a chunk of `piece`, the rest of what the loop reads is cut into the remaining pieces. */
  lemma PiecesStep(u: Upload, k: Cursor, k': Cursor)
    requires Within(u, k) && u.chunk > 0 && Piece(u, k) != []
    requires k'.rest == k.rest[|Piece(u, k)|..] && k'.combined == k.combined + |Piece(u, k)|
    requires !(u.size != 0 && u.size == k.combined)
    ensures Within(u, k')
    ensures Slices(k.rest[..Extent(u, k)], u.chunk) == [Piece(u, k)] + Slices(k'.rest[..Extent(u, k')], u.chunk)
  {
    var piece := Piece(u, k);
    var head := k.rest[..Extent(u, k)];
    assert Min(u.chunk, |head|) == |piece|;
    assert head[..|piece|] == piece;
    assert head[|piece|..] == k'.rest[..Extent(u, k')];
  }

  /**
   * With nothing on container `c` refused and a positive chunk size, chunk
   * `n + i` holds piece `i` of the bytes the loop reads.
   */
  lemma {:induction false} ChunkLoopStores(u: Upload, k: Cursor)
    requires Within(u, k) && u.c in k.store && Unrefused(u.refused, u.c)
    requires u.chunk > 0
    ensures u.c in ChunkLoop(u, k).store
    ensures HoldsPieces(ChunkLoop(u, k).store[u.c], u.id, k.n, Slices(k.rest[..Extent(u, k)], u.chunk))
    decreases |k.rest|
  {
    TurnUnrefused(u, k);
    match Turn(u, k)
    case Done(_) =>
      assert k.rest[..Extent(u, k)] == [];
    case Next(k') =>
      var name := ChunkName(u.id, k.n);
      PiecesStep(u, k, k');
      ChunkLoopStores(u, k');
      LaterChunksDiffer(u.id, k.n);
      ChunkLoopKeepsOthers(u, k', name);
      var pieces := Slices(k.rest[..Extent(u, k)], u.chunk);
      assert pieces[1..] == Slices(k'.rest[..Extent(u, k')], u.chunk);
  }

  /**
   * The zero-length chunk the loop writes after the last piece, when it
   * writes one, is gone again when the loop ends.
   */
  lemma {:induction false} ChunkLoopDropsEmptyChunk(u: Upload, k: Cursor)
    requires Within(u, k) && u.c in k.store && Unrefused(u.refused, u.c)
    requires u.chunk > 0
    ensures var pieces := Slices(k.rest[..Extent(u, k)], u.chunk);
      && u.c in ChunkLoop(u, k).store
      && (|ChunkLoop(u, k).written| > |k.written| + |pieces| ==> ChunkName(u.id, k.n + |pieces|) !in ChunkLoop(u, k).store[u.c])
    decreases |k.rest|
  {
    TurnDropsEmptyChunk(u, k);
    if Turn(u, k).Next? {
      ChunkLoopDropsEmptyChunk(u, Turn(u, k).cursor);
      assert ChunkLoop(u, k) == ChunkLoop(u, Turn(u, k).cursor);
    }
  }

  /** One turn of `ChunkLoopDropsEmptyChunk`: going on, one piece fewer is left, one chunk further on. */
  lemma TurnDropsEmptyChunk(u: Upload, k: Cursor)
    requires Within(u, k) && u.c in k.store && Unrefused(u.refused, u.c)
    requires u.chunk > 0
    ensures var pieces := Slices(k.rest[..Extent(u, k)], u.chunk);
      Turn(u, k).Done? ==>
        && u.c in Turn(u, k).end.store
        && (|Turn(u, k).end.written| > |k.written| + |pieces| ==>
              ChunkName(u.id, k.n + |pieces|) !in Turn(u, k).end.store[u.c])
    ensures Turn(u, k).Next? ==>
      var k' := Turn(u, k).cursor;
      var pieces := Slices(k.rest[..Extent(u, k)], u.chunk);
      var pieces' := Slices(k'.rest[..Extent(u, k')], u.chunk);
      && u.c in k'.store
      && k.n + |pieces| == k'.n + |pieces'|
      && |k.written| + |pieces| == |k'.written| + |pieces'|
  {
    TurnUnrefused(u, k);
    if Turn(u, k).Next? {
      PiecesStep(u, k, Turn(u, k).cursor);
    } else {
      assert k.rest[..Extent(u, k)] == [];
    }
  }

  /** `st` differs from `base` at most in container `c`, and there only in the objects `names`. */
  ghost predicate AgreesOutside(st: Containers, base: Containers, c: string, names: seq<string>)
  {
    && c in base && c in st && st == base[c := st[c]]
    && (forall nm :: nm !in names ==> (nm in st[c] <==> nm in base[c]))
    && (forall nm :: nm !in names && nm in base[c] ==> st[c][nm] == base[c][nm])
  }

  /**
   * When the store refuses a chunk PUT and no delete on container `c`,
   * the clean-up leaves the store as it was before the loop (`base`)
   * apart from the chunks the loop wrote, which are all gone.
   */
  lemma {:induction false} ChunkLoopCleansUp(base: Containers, u: Upload, k: Cursor)
    requires Within(u, k) && AgreesOutside(k.store, base, u.c, k.written)
    requires forall nm :: DeleteObject(u.c, nm) !in u.refused
    ensures ChunkLoop(u, k).error.Some? ==> ChunkLoop(u, k).store == RemoveNames(base, u.c, set nm | nm in ChunkLoop(u, k).written)
    decreases |k.rest|
  {
    var name := ChunkName(u.id, k.n);
    TurnNames(u, k);
    match Turn(u, k)
    case Done(end) =>
      var put := Put(k.store, u.refused, u.c, name, StoredObject(Piece(u, k), None));
      if !(u.size != 0 && u.size == k.combined) && put.outcome.Fail? {
        var names := set nm | nm in k.written;
        DeleteAllRemoves(k.store, u.refused, u.c, k.written);
        assert (set nm | nm in k.written && DeleteObject(u.c, nm) !in u.refused) == names;
        assert k.store[u.c] - names == base[u.c] - names;
      } else if !(u.size != 0 && u.size == k.combined) && Piece(u, k) == [] {
        assert Delete(put.after, u.refused, u.c, name).outcome.Pass?;
      }
    case Next(k') =>
      assert AgreesOutside(k'.store, base, u.c, k'.written);
      ChunkLoopCleansUp(base, u, k');
  }

  // ----- add ---------------------------------------------------------------------

  /** The MD5 digest of the given bytes; the hash function itself is not modelled. */
  datatype Digest = Md5Of(bytes: seq<bv8>)

  /** What `add` returns or raises, and the containers it leaves. */
  datatype AddEnd = AddEnd(result: Result<Digest, Error>, store: Containers)

  /** The outer `except swiftclient.ClientException` of `add`: 409 becomes Duplicate, anything else BackendException. */
  function Wrap(e: Error): (w: Error)
    ensures w.Duplicate? <==> e == ClientException(HttpConflict)
    ensures w.BackendException? <==> e != ClientException(HttpConflict)
  {
    if e == ClientException(HttpConflict) then Duplicate("Swift already has an image at this location")
    else BackendException("Failed to add object to Swift.\nGot error from Swift: " + ErrorText(e))
  }

  /** The manifest object: no data, and the chunk prefix `<container>/<id>-`. */
  function Manifest(c: string, id: string): StoredObject
  {
    StoredObject([], Some(c + "/" + id + "-"))
  }

  /** The cursor before the first chunk: chunk 1, nothing written, stored or read. */
  function Start(st: Containers, data: seq<bv8>): Cursor
  {
    Cursor(st, 1, [], data, 0, [])
  }

  /** The chunked branch of `add`: the chunk loop from chunk 1, then the manifest under the image id. */
  function ChunkedAdd(st: Containers, u: Upload, data: seq<bv8>): AddEnd
  {
    var loop := ChunkLoop(u, Start(st, data));
    if loop.error.Some? then AddEnd(Err(Wrap(loop.error.value)), loop.store)
    else
      var m := Put(loop.store, u.refused, u.c, u.id, Manifest(u.c, u.id));
      if m.outcome.Fail? then AddEnd(Err(Wrap(m.outcome.error)), m.after)
      else AddEnd(Ok(Md5Of(loop.read)), m.after)
  }

  /** The single PUT of `add` for a known size below the large-object size. */
  function SingleAdd(st: Containers, refused: map<Request, int>, c: string, id: string, bytes: seq<bv8>): AddEnd
  {
    var p := Put(st, refused, c, id, StoredObject(bytes, None));
    if p.outcome.Fail? then AddEnd(Err(Wrap(p.outcome.error)), p.after) else AddEnd(Ok(Md5Of(bytes)), p.after)
  }

  /** The NotFound `add` raises for a container that does not exist. */
  function MissingContainer(c: string): Error
  {
    NotFound("container '" + c + "' does not exist")
  }

  /** The Duplicate `add` raises for an image id already stored in the container. */
  function AlreadyStored(id: string, c: string): Error
  {
    Duplicate("Swift already has an object with id '" + id + "' in container '" + c + "'")
  }

  /** The TypeError of `image_size - combined_chunks_size` when the size is None. */
  const NoneMinusInt: Error := TypeError("unsupported operand type(s) for -: 'NoneType' and 'int'")

  /** The ZeroDivisionError of `float(image_size) / float(self.large_object_chunk_size)` for a chunk size of 0. */
  const FloatDivisionByZero: Error := ZeroDivisionError("float division by zero")

  /**
   * `SwiftStore.add(image_id, image_data, image_size, auth_token, container)`
   * on a store in state `st`; `data` is what the image data yields and
   * `size` the image size, None for a size that cannot be subtracted from.
   */
  function AddSpec(st: Containers, refused: map<Request, int>, id: string, data: seq<bv8>, size: Option<nat>, c: string,
                   largeSize: nat, chunk: nat): AddEnd
  {
    match HeadContainerOutcome(st, refused, c)
    case Fail(e) =>
      AddEnd(Err(if e == ClientException(HttpNotFound) then MissingContainer(c) else e), st)
    case Pass =>
      match HeadObjectOutcome(st, refused, c, id)
      case Pass =>
        AddEnd(Err(AlreadyStored(id, c)), st)
      case Fail(e) =>
        if e != ClientException(HttpNotFound) then AddEnd(Err(e), st)
        else if size.Some? && 0 < size.value < largeSize then SingleAdd(st, refused, c, id, data[..Min(size.value, |data|)])
        else if size.Some? && size.value > 0 && chunk == 0 then AddEnd(Err(FloatDivisionByZero), st)
        else if size.None? then AddEnd(Err(NoneMinusInt), st)
        else ChunkedAdd(st, Upload(refused, c, id, size.value, chunk), data)
  }

  /** A missing container raises NotFound before anything is written. */
  lemma AddRefusesMissingContainer(st: Containers, refused: map<Request, int>, id: string, data: seq<bv8>, size: Option<nat>,
                                   c: string, largeSize: nat, chunk: nat)
    requires c !in st && HeadContainer(c) !in refused
    ensures AddSpec(st, refused, id, data, size, c, largeSize, chunk).result.Err?
    ensures AddSpec(st, refused, id, data, size, c, largeSize, chunk).result.error.NotFound?
    ensures AddSpec(st, refused, id, data, size, c, largeSize, chunk).store == st
  {
  }

  /** An object already stored under the image id raises Duplicate before anything is written. */
  lemma AddRefusesExistingObject(st: Containers, refused: map<Request, int>, id: string, data: seq<bv8>, size: Option<nat>,
                                 c: string, largeSize: nat, chunk: nat)
    requires c in st && id in st[c] && HeadContainer(c) !in refused && HeadObject(c, id) !in refused
    ensures AddSpec(st, refused, id, data, size, c, largeSize, chunk).result.Err?
    ensures AddSpec(st, refused, id, data, size, c, largeSize, chunk).result.error.Duplicate?
    ensures AddSpec(st, refused, id, data, size, c, largeSize, chunk).store == st
  {
  }

  /**
   * A known size at least the large-object size with a chunk size of 0:
   * counting the chunks divides by zero, so `add` raises ZeroDivisionError
   * before any chunk is written.
   */
  lemma AddRefusesZeroChunkSize(st: Containers, refused: map<Request, int>, id: string, data: seq<bv8>, size: nat,
                                c: string, largeSize: nat)
    requires c in st && id !in st[c] && HeadContainer(c) !in refused && HeadObject(c, id) !in refused
    requires size > 0 && size >= largeSize
    ensures AddSpec(st, refused, id, data, Some(size), c, largeSize, 0)
         == AddEnd(Err(ZeroDivisionError("float division by zero")), st)
  {
  }

  /** A known size below the large-object size is written with one PUT under the image id, and no chunk exists. */
  lemma AddSmallImage(st: Containers, refused: map<Request, int>, id: string, data: seq<bv8>, size: nat,
                      c: string, largeSize: nat, chunk: nat)
    requires c in st && id !in st[c] && Unrefused(refused, c)
    requires 0 < size < largeSize
    ensures AddSpec(st, refused, id, data, Some(size), c, largeSize, chunk)
         == AddEnd(Ok(Md5Of(data[..Min(size, |data|)])), st[c := st[c][id := StoredObject(data[..Min(size, |data|)], None)]])
  {
    assert PutObject(c, id) !in refused;
  }

  /**
   * A chunked upload with nothing refused: the digest covers every byte
   * read (the whole data for an unknown size), chunk `i` holds piece `i`
   * of those bytes, and the image id holds the manifest.
   */
  lemma AddLargeImage(st: Containers, refused: map<Request, int>, id: string, data: seq<bv8>, size: nat,
                      c: string, largeSize: nat, chunk: nat)
    requires c in st && id !in st[c] && Unrefused(refused, c)
    requires size == 0 || size >= largeSize
    requires chunk > 0
    ensures var end := AddSpec(st, refused, id, data, Some(size), c, largeSize, chunk);
      var read := data[..Consumed(data, size)];
      var pieces := Slices(read, chunk);
      && end.result == Ok(Md5Of(read))
      && c in end.store && id in end.store[c] && end.store[c][id] == Manifest(c, id)
      && (forall i :: 0 <= i < |pieces| ==> Find(end.store[c], ChunkName(id, 1 + i)) == Some(StoredObject(pieces[i], None)))
  {
    var u := Upload(refused, c, id, size, chunk);
    assert AddSpec(st, refused, id, data, Some(size), c, largeSize, chunk) == ChunkedAdd(st, u, data) by {
      assert HeadObject(c, id) !in refused;
    }
    ChunkedAddUnrefused(st, u, data);
    var end := ChunkedAdd(st, u, data);
    var pieces := Slices(data[..Consumed(data, size)], chunk);
    forall i | 0 <= i < |pieces| ensures Find(end.store[c], ChunkName(id, 1 + i)) == Some(StoredObject(pieces[i], None)) {
      HoldsPieceAt(end.store[c], id, 1, pieces, i);
    }
  }

  /** The chunked branch with nothing on the container refused: the digest, the manifest and the chunks. */
  lemma ChunkedAddUnrefused(st: Containers, u: Upload, data: seq<bv8>)
    requires u.c in st && Unrefused(u.refused, u.c) && u.chunk > 0
    ensures var end := ChunkedAdd(st, u, data);
      var read := data[..Consumed(data, u.size)];
      && end.result == Ok(Md5Of(read))
      && u.c in end.store && u.id in end.store[u.c] && end.store[u.c][u.id] == Manifest(u.c, u.id)
      && HoldsPieces(end.store[u.c], u.id, 1, Slices(read, u.chunk))
  {
    var k := Start(st, data);
    ChunkLoopReads(u, k);
    ChunkLoopStores(u, k);
    var loop := ChunkLoop(u, k);
    assert PutObject(u.c, u.id) !in u.refused;
    var objects := loop.store[u.c][u.id := Manifest(u.c, u.id)];
    HoldsPiecesBesideId(loop.store[u.c], u.id, 1, Slices(data[..Extent(u, k)], u.chunk), Manifest(u.c, u.id));
    assert ChunkedAdd(st, u, data) == AddEnd(Ok(Md5Of(loop.read)), loop.store[u.c := objects]);
    assert Extent(u, k) == Consumed(data, u.size);
    assert loop.read == data[..Consumed(data, u.size)];
  }

  /**
   * When the store refuses a chunk PUT but no delete, `add` raises and
   * every chunk it wrote is deleted again; nothing else in the store has
   * changed.
   */
  lemma AddCleansUpAfterFailedChunk(st: Containers, refused: map<Request, int>, id: string, data: seq<bv8>, size: nat,
                                    c: string, largeSize: nat, chunk: nat)
    requires c in st && id !in st[c] && HeadContainer(c) !in refused && HeadObject(c, id) !in refused
    requires forall nm :: DeleteObject(c, nm) !in refused
    requires size == 0 || size >= largeSize
    requires ChunkLoop(Upload(refused, c, id, size, chunk), Start(st, data)).error.Some?
    ensures var end := AddSpec(st, refused, id, data, Some(size), c, largeSize, chunk);
      var loop := ChunkLoop(Upload(refused, c, id, size, chunk), Start(st, data));
      && end.result.Err?
      && end.store == RemoveNames(st, c, set nm | nm in loop.written)
      && loop.written == ChunkNames(id, 1, |loop.written|)
  {
    var u := Upload(refused, c, id, size, chunk);
    ChunkLoopCleansUp(st, u, Start(st, data));
    ChunkLoopNames(u, Start(st, data));
    var w := ChunkLoop(u, Start(st, data)).written;
    assert [] + ChunkNames(id, 1, |w|) == ChunkNames(id, 1, |w|);
  }
}
