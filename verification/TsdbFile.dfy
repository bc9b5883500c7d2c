/**
 * The hour and rollup files: delta-encoded chunks, one per series, then an index and a trailer.
 * Deflate and inflate are a pair of functions of which only "inflate undoes deflate" is known.
 */
module TsdbFile {
  import opened Wrappers
  import opened Bytes
  import opened TsdbBytes
  import opened Sorting

  datatype Sample = Sample(t: int64, v: uint32)

  /** One encoded point: a time and its values (one in raw files; mean, min and max in rollups). */
  datatype Row = Row(t: int64, vs: seq<uint32>)

  datatype Packer = Packer(deflate: bytes -> bytes, inflate: bytes -> Result<bytes>)

  ghost predicate Lossless(z: Packer) {
    forall b :: z.inflate(z.deflate(b)) == Ok(b)
  }

  ghost predicate Uniform(rows: seq<Row>, per: nat) {
    forall i :: 0 <= i < |rows| ==> |rows[i].vs| == per
  }

  // ---- chunks ---------------------------------------------------------------------------------

  function PutValues(vs: seq<uint32>): (b: bytes)
    ensures |b| == 4 * |vs|
  {
    if vs == [] then [] else PutLE(F32(vs[0]), 4) + PutValues(vs[1..])
  }

  /** A point: the time as a difference to the previous one, then its values. */
  function PutRow(r: Row, prev: int64): bytes {
    PutVarint(Wrap(r.t - prev)) + PutValues(r.vs)
  }

  function PutRows(rows: seq<Row>, prev: int64): bytes {
    if rows == [] then [] else PutRow(rows[0], prev) + PutRows(rows[1..], rows[0].t)
  }

  function EncodeChunk(rows: seq<Row>): bytes {
    PutUvarint(|rows|) + PutRows(rows, 0)
  }

  /** `count` values of one point, each decoded to a sample of its own. */
  function GetValues(b: bytes, t: int64, count: nat): (r: seq<Sample>)
    requires |b| == 4 * count
  {
    if count == 0 then [] else [Sample(t, Word32(b[..4]))] + GetValues(b[4..], t, count - 1)
  }

  datatype Point = Point(t: int64, samples: seq<Sample>, size: nat)

  function GetRow(b: bytes, prev: int64, per: nat): (r: Result<Point>)
    ensures r.Ok? ==> r.value.size <= |b|
  {
    match ReadVarint(b)
    case Got(d, k) =>
      var t := Wrap(prev + d);
      if k + 4 * per > |b| then Err
      else Ok(Point(t, GetValues(b[k..k + 4 * per], t, per), k + 4 * per))
    case _ => Err
  }

  function Following(first: seq<Sample>, more: Result<seq<Sample>>): Result<seq<Sample>> {
    match more case Ok(s) => Ok(first + s) case Err => Err
  }

  function GetRows(b: bytes, n: nat, prev: int64, per: nat): Result<seq<Sample>>
    decreases n
  {
    if n == 0 then Ok([])
    else
      match GetRow(b, prev, per)
      case Err => Err
      case Ok(p) => Following(p.samples, GetRows(b[p.size..], n - 1, p.t, per))
  }

  function DecodeChunk(b: bytes, per: nat): Result<seq<Sample>> {
    match Uvarint(b, 0)
    case Got(n, k) => GetRows(b[k..], n, 0, per)
    case _ => Err
  }

  /** What decoding gives back: times exactly, values as kept. */
  function Samples(t: int64, vs: seq<uint32>): (r: seq<Sample>) {
    seq(|vs|, i requires 0 <= i < |vs| => Sample(t, F32(vs[i])))
  }

  function Flatten(rows: seq<Row>): seq<Sample> {
    if rows == [] then [] else Samples(rows[0].t, rows[0].vs) + Flatten(rows[1..])
  }

  lemma {:induction false} ValuesRoundTrip(vs: seq<uint32>, t: int64)
    ensures GetValues(PutValues(vs), t, |vs|) == Samples(t, vs)
  {
    if vs != [] {
      var b := PutValues(vs);
      LE32RoundTrip(F32(vs[0]));
      assert b[..4] == PutLE(F32(vs[0]), 4) && b[4..] == PutValues(vs[1..]);
      ValuesRoundTrip(vs[1..], t);
    }
  }

  lemma {:induction false} RowPieces(head: bytes, vals: bytes, tail: bytes)
    ensures var b := head + vals + tail;
      b == head + (vals + tail) && b[|head|..|head| + |vals|] == vals && b[|head| + |vals|..] == tail
  {
  }

  lemma {:induction false} GetRowIs(b: bytes, prev: int64, per: nat, d: int, k: nat, vals: bytes)
    requires ReadVarint(b) == Got(d, k) && k + 4 * per <= |b| && b[k..k + 4 * per] == vals
    ensures GetRow(b, prev, per) == Ok(Point(Wrap(prev + d), GetValues(vals, Wrap(prev + d), per), k + 4 * per))
  {
  }

  lemma {:induction false} RowRoundTrip(r: Row, prev: int64, tail: bytes, per: nat)
    requires |r.vs| == per
    ensures GetRow(PutRow(r, prev) + tail, prev, per) == Ok(Point(r.t, Samples(r.t, r.vs), |PutRow(r, prev)|))
  {
    var d := Wrap(r.t - prev);
    RowPieces(PutVarint(d), PutValues(r.vs), tail);
    VarintRoundTrip(d, PutValues(r.vs) + tail);
    GetRowIs(PutRow(r, prev) + tail, prev, per, d, |PutVarint(d)|, PutValues(r.vs));
    WrapDifference(r.t, prev);
    ValuesRoundTrip(r.vs, r.t);
  }

  lemma {:induction false} RowsRoundTrip(rows: seq<Row>, prev: int64, per: nat)
    requires Uniform(rows, per)
    ensures GetRows(PutRows(rows, prev), |rows|, prev, per) == Ok(Flatten(rows))
  {
    if rows != [] {
      var first, tail := PutRow(rows[0], prev), PutRows(rows[1..], rows[0].t);
      RowRoundTrip(rows[0], prev, tail, per);
      assert (first + tail)[|first|..] == tail;
      RowsRoundTrip(rows[1..], rows[0].t, per);
    }
  }

  /** Every chunk decodes to its points, for any int64 times: differences may wrap. */
  lemma {:induction false} ChunkRoundTrip(rows: seq<Row>, per: nat)
    requires Uniform(rows, per) && |rows| < TWO63
    ensures DecodeChunk(EncodeChunk(rows), per) == Ok(Flatten(rows))
  {
    var head, tail := PutUvarint(|rows|), PutRows(rows, 0);
    RoomIs64Bit();
    UvarintRoundTrip(|rows|, tail, 0);
    assert (head + tail)[|head|..] == tail;
    RowsRoundTrip(rows, 0, per);
  }

  // ---- the chunk loops ------------------------------------------------------------------------

  lemma {:induction false} PutRowsSnoc(rows: seq<Row>, r: Row, prev: int64)
    ensures PutRows(rows + [r], prev)
      == PutRows(rows, prev) + PutRow(r, if rows == [] then prev else rows[|rows| - 1].t)
  {
    if rows == [] {
      assert (rows + [r])[1..] == [];
    } else {
      assert (rows + [r])[1..] == rows[1..] + [r];
      PutRowsSnoc(rows[1..], r, rows[0].t);
    }
  }

  lemma {:induction false} Snoc<T>(s: seq<T>, i: nat)
    requires i < |s|
    ensures s[..i + 1] == s[..i] + [s[i]]
  {
  }

  lemma {:induction false} Assoc(a: bytes, b: bytes, c: bytes)
    ensures a + b + c == a + (b + c)
  {
  }

  /** writeRaw's inner loop, which carries the previous time. */
  method WriteChunk(rows: seq<Row>) returns (chunk: bytes)
    ensures chunk == EncodeChunk(rows)
  {
    chunk := PutUvarint(|rows|);
    var prev: int64 := 0;
    for i := 0 to |rows|
      invariant chunk == PutUvarint(|rows|) + PutRows(rows[..i], 0)
      invariant prev == if i == 0 then 0 else rows[i - 1].t
    {
      Snoc(rows, i);
      PutRowsSnoc(rows[..i], rows[i], 0);
      Assoc(PutUvarint(|rows|), PutRows(rows[..i], 0), PutRow(rows[i], prev));
      chunk := chunk + PutRow(rows[i], prev);
      prev := rows[i].t;
    }
    assert rows[..|rows|] == rows;
  }

  lemma {:induction false} FollowingTwice(a: seq<Sample>, b: seq<Sample>, r: Result<seq<Sample>>)
    ensures Following(a, Following(b, r)) == Following(a + b, r)
  {
    if r.Ok? { assert a + (b + r.value) == a + b + r.value; }
  }

  lemma {:induction false} GetRowsOne(buf: bytes, pos: nat, n: nat, prev: int64, per: nat, p: Result<Point>)
    requires pos <= |buf| && n > 0 && p == GetRow(buf[pos..], prev, per)
    ensures p.Err? ==> GetRows(buf[pos..], n, prev, per) == Err
    ensures p.Ok? ==> GetRows(buf[pos..], n, prev, per)
                      == Following(p.value.samples, GetRows(buf[pos + p.value.size..], n - 1, p.value.t, per))
  {
  }

  /** One more point decoded, behind what is decoded already. */
  lemma {:induction false} GetRowsStep(buf: bytes, pos: nat, n: nat, prev: int64, per: nat, done: seq<Sample>,
                                       p: Result<Point>)
    requires pos <= |buf| && n > 0 && p == GetRow(buf[pos..], prev, per)
    ensures p.Err? ==> Following(done, GetRows(buf[pos..], n, prev, per)) == Err
    ensures p.Ok? ==> Following(done, GetRows(buf[pos..], n, prev, per))
                      == Following(done + p.value.samples, GetRows(buf[pos + p.value.size..], n - 1, p.value.t, per))
  {
    GetRowsOne(buf, pos, n, prev, per, p);
    if p.Ok? {
      FollowingTwice(done, p.value.samples, GetRows(buf[pos + p.value.size..], n - 1, p.value.t, per));
    }
  }

  lemma {:induction false} FollowingNothing(r: Result<seq<Sample>>)
    ensures Following([], r) == r
  {
    if r.Ok? { assert [] + r.value == r.value; }
  }

  /** Decodes one point and moves behind it; a point cut off ends the chunk. */
  method NextRow(buf: bytes, pos: nat, ghost n: nat, prev: int64, per: nat, out: seq<Sample>)
    returns (ok: bool, pos': nat, prev': int64, out': seq<Sample>)
    requires pos <= |buf| && n > 0
    ensures pos' <= |buf|
    ensures Following(out, GetRows(buf[pos..], n, prev, per))
         == if ok then Following(out', GetRows(buf[pos'..], n - 1, prev', per)) else Err
  {
    var p := GetRow(buf[pos..], prev, per);
    GetRowsStep(buf, pos, n, prev, per, out, p);
    if p.Err? {
      return false, pos, prev, out;
    }
    return true, pos + p.value.size, p.value.t, out + p.value.samples;
  }

  /** The loop over the points, which advances a position through the buffer. */
  method ReadRows(buf: bytes, start: nat, n: nat, per: nat) returns (r: Result<seq<Sample>>)
    requires start <= |buf|
    ensures r == GetRows(buf[start..], n, 0, per)
  {
    var pos := start;
    var out: seq<Sample> := [];
    var prev: int64 := 0;
    ghost var all := GetRows(buf[pos..], n, prev, per);
    FollowingNothing(all);
    for i := 0 to n
      invariant 0 <= pos <= |buf|
      invariant Following(out, GetRows(buf[pos..], n - i, prev, per)) == all
    {
      var ok;
      ok, pos, prev, out := NextRow(buf, pos, n - i, prev, per, out);
      if !ok {
        return Err;
      }
    }
    assert out + [] == out;
    r := Ok(out);
  }

  method ReadChunk(buf: bytes, per: nat) returns (r: Result<seq<Sample>>)
    ensures r == DecodeChunk(buf, per)
  {
    var h := Uvarint(buf, 0);
    if !h.Got? {
      return Err;
    }
    r := ReadRows(buf, h.size, h.value, per);
  }

  // ---- files ----------------------------------------------------------------------------------

  /** A series' compressed chunk. */
  datatype Part = Part(id: uint32, data: bytes)

  /** Index entry: where a chunk lies. */
  datatype Span = Span(off: nat, len: nat)

  function Data(parts: seq<Part>): bytes {
    if parts == [] then [] else parts[0].data + Data(parts[1..])
  }

  function Entry(id: uint32, off: nat, len: nat): (b: bytes)
    ensures |b| == 20
  {
    PutLE(id, 4) + PutLE(off, 8) + PutLE(len, 8)
  }

  function Index(parts: seq<Part>, off: nat): (b: bytes)
    ensures |b| == 20 * |parts|
  {
    if parts == [] then []
    else Entry(parts[0].id, off, |parts[0].data|) + Index(parts[1..], off + |parts[0].data|)
  }

  function Trailer(idxStart: nat, count: nat): (b: bytes)
    ensures |b| == 12
  {
    PutLE(idxStart, 8) + PutLE(count, 4)
  }

  function File(magic: bytes, parts: seq<Part>): bytes {
    magic + Data(parts) + Index(parts, 4) + Trailer(4 + |Data(parts)|, |parts|)
  }

  const RAW: bytes := [0x54, 0x4C, 0x42, 0x32]
  const ROLLUP: bytes := [0x54, 0x4C, 0x52, 0x32]
  const RAW_V1: bytes := [0x54, 0x4C, 0x42, 0x31]
  const ROLLUP_V1: bytes := [0x54, 0x4C, 0x52, 0x31]

  datatype FileIndex = FileIndex(rollup: bool, packed: bool, entries: map<uint32, Span>)

  function ReadEntries(idx: bytes, n: nat, m: map<uint32, Span>): map<uint32, Span>
    requires |idx| == 20 * n
  {
    if n == 0 then m
    else ReadEntries(idx[20..], n - 1, m[Word32(idx[..4]) := Span(LE(idx[4..12]), LE(idx[12..20]))])
  }

  /** The magic decides the format; sizes must agree exactly. */
  function OpenIndex(file: bytes): Result<FileIndex> {
    if |file| < 16 then Err
    else
      var magic, trailer := file[..4], file[|file| - 12..];
      if magic != RAW && magic != ROLLUP && magic != RAW_V1 && magic != ROLLUP_V1 then Err
      else
        var idxStart, n := LE(trailer[..8]), LE(trailer[8..]);
        // a start of 2^63 or more reads as negative
        if idxStart < 4 || idxStart >= TWO63 || idxStart + n * 20 + 12 != |file| then Err
        else Ok(FileIndex(magic == ROLLUP || magic == ROLLUP_V1, magic == RAW || magic == ROLLUP,
                          ReadEntries(file[idxStart..idxStart + n * 20], n, map[])))
  }

  // ---- file round trip ------------------------------------------------------------------------

  ghost predicate DistinctIds(parts: seq<Part>) {
    forall i, j :: 0 <= i < j < |parts| ==> parts[i].id != parts[j].id
  }

  /** The index as a map, entry by entry. */
  function Entries(parts: seq<Part>, off: nat, m: map<uint32, Span>): map<uint32, Span> {
    if parts == [] then m
    else Entries(parts[1..], off + |parts[0].data|, m[parts[0].id := Span(off, |parts[0].data|)])
  }

  lemma {:induction false} EntryRoundTrip(id: uint32, off: nat, len: nat, rest: bytes)
    requires off < TWO64 && len < TWO64
    ensures var b := Entry(id, off, len) + rest;
      Word32(b[..4]) == id && LE(b[4..12]) == off && LE(b[12..20]) == len && b[20..] == rest
  {
    var b := Entry(id, off, len) + rest;
    LE32RoundTrip(id);
    LE64RoundTrip(off);
    LE64RoundTrip(len);
    assert b[..4] == PutLE(id, 4) && b[4..12] == PutLE(off, 8) && b[12..20] == PutLE(len, 8);
  }

  lemma {:induction false} IndexRoundTrip(parts: seq<Part>, off: nat, m: map<uint32, Span>)
    requires off + |Data(parts)| < TWO64
    ensures ReadEntries(Index(parts, off), |parts|, m) == Entries(parts, off, m)
  {
    if parts != [] {
      var len := |parts[0].data|;
      EntryRoundTrip(parts[0].id, off, len, Index(parts[1..], off + len));
      IndexRoundTrip(parts[1..], off + len, m[parts[0].id := Span(off, len)]);
    }
  }

  /** Entries of other series stay; entry i lies right behind the chunks before it. */
  lemma {:induction false} EntriesKeep(parts: seq<Part>, off: nat, m: map<uint32, Span>, id: uint32)
    requires forall i :: 0 <= i < |parts| ==> parts[i].id != id
    ensures id in Entries(parts, off, m) <==> id in m
    ensures id in m ==> Entries(parts, off, m)[id] == m[id]
  {
    if parts != [] {
      EntriesKeep(parts[1..], off + |parts[0].data|, m[parts[0].id := Span(off, |parts[0].data|)], id);
    }
  }

  lemma {:induction false} EntriesLocate(parts: seq<Part>, off: nat, m: map<uint32, Span>, i: nat)
    requires DistinctIds(parts) && i < |parts|
    ensures var e := Entries(parts, off, m);
      parts[i].id in e && e[parts[i].id] == Span(off + |Data(parts[..i])|, |parts[i].data|)
  {
    var m' := m[parts[0].id := Span(off, |parts[0].data|)];
    if i == 0 {
      assert parts[..0] == [];
      EntriesKeep(parts[1..], off + |parts[0].data|, m', parts[0].id);
    } else {
      EntriesLocate(parts[1..], off + |parts[0].data|, m', i - 1);
      assert parts[..i][1..] == parts[1..][..i - 1];
    }
  }

  /** The chunks tile the data region: chunk i starts where the chunks before it end. */
  lemma {:induction false} DataTiles(parts: seq<Part>, i: nat)
    requires i < |parts|
    ensures var off := |Data(parts[..i])|;
      && off + |parts[i].data| == |Data(parts[..i + 1])| <= |Data(parts)|
      && Data(parts)[off..off + |parts[i].data|] == parts[i].data
  {
    assert parts[..i + 1][1..] == parts[1..][..i];
    if i == 0 {
      assert parts[..0] == [] && parts[1..][..0] == [];
    } else {
      DataTiles(parts[1..], i - 1);
      assert parts[..i][1..] == parts[1..][..i - 1];
    }
  }

  function FormatOf(magic: bytes, entries: map<uint32, Span>): FileIndex {
    FileIndex(magic == ROLLUP || magic == ROLLUP_V1, magic == RAW || magic == ROLLUP, entries)
  }

  ghost predicate Fits(magic: bytes, parts: seq<Part>) {
    && (magic == RAW || magic == ROLLUP)
    && |parts| < 0x1_0000_0000 && |File(magic, parts)| < TWO63
  }

  lemma {:induction false} FilePieces(magic: bytes, data: bytes, idx: bytes, trailer: bytes)
    requires |magic| == 4 && |trailer| == 12
    ensures var file := magic + data + idx + trailer;
      && file[..4] == magic && file[|file| - 12..] == trailer
      && file[4 + |data|..4 + |data| + |idx|] == idx
  {
  }

  lemma {:induction false} Opens(magic: bytes, data: bytes, idx: bytes, trailer: bytes, n: nat)
    requires (magic == RAW || magic == ROLLUP) && |trailer| == 12 && |idx| == 20 * n
    requires LE(trailer[..8]) == 4 + |data| < TWO63 && LE(trailer[8..]) == n
    ensures OpenIndex(magic + data + idx + trailer) == Ok(FormatOf(magic, ReadEntries(idx, n, map[])))
  {
    FilePieces(magic, data, idx, trailer);
  }

  /** Every written file passes the size check, and its index is the one that was written. */
  lemma {:induction false} FileOpens(magic: bytes, parts: seq<Part>)
    requires Fits(magic, parts)
    ensures OpenIndex(File(magic, parts)) == Ok(FormatOf(magic, Entries(parts, 4, map[])))
  {
    var data, idx := Data(parts), Index(parts, 4);
    var trailer := Trailer(4 + |data|, |parts|);
    assert trailer[..8] == PutLE(4 + |data|, 8) && trailer[8..] == PutLE(|parts|, 4);
    LE64RoundTrip(4 + |data|);
    LE32RoundTrip(|parts|);
    Opens(magic, data, idx, trailer, |parts|);
    IndexRoundTrip(parts, 4, map[]);
  }

  /** ReadAt fills a short read with zeros; the source ignores io.EOF. */
  function ReadAt(file: bytes, s: Span): Result<bytes> {
    if s.off >= TWO63 || s.len >= TWO63 then Err
    else if s.off + s.len <= |file| then Ok(file[s.off..s.off + s.len])
    else
      var got := if s.off <= |file| then file[s.off..] else [];
      Ok(got + seq(s.len - |got|, _ => 0))
  }

  /** The samples of one series; a series without a chunk has none. */
  function ReadSeries(z: Packer, file: bytes, id: uint32): Result<seq<Sample>> {
    match OpenIndex(file)
    case Err => Err
    case Ok(fi) =>
      if id !in fi.entries then Ok([])
      else
        match ReadAt(file, fi.entries[id])
        case Err => Err
        case Ok(buf) =>
          var per := if fi.rollup then 3 else 1;
          if !fi.packed then DecodeChunk(buf, per)
          else
            match z.inflate(buf)
            case Err => Err
            case Ok(chunk) => DecodeChunk(chunk, per)
  }

  lemma {:induction false} FileData(magic: bytes, parts: seq<Part>, off: nat, len: nat)
    requires |magic| == 4 && off + len <= |Data(parts)|
    ensures 4 + |Data(parts)| <= |File(magic, parts)|
    ensures File(magic, parts)[4 + off..4 + off + len] == Data(parts)[off..off + len]
  {
  }

  lemma {:induction false} ReadsBack(magic: bytes, parts: seq<Part>, i: nat, s: Span)
    requires Fits(magic, parts) && i < |parts|
    requires s == Span(4 + |Data(parts[..i])|, |parts[i].data|)
    ensures ReadAt(File(magic, parts), s) == Ok(parts[i].data)
  {
    DataTiles(parts, i);
    FileData(magic, parts, s.off - 4, s.len);
  }

  lemma {:induction false} FileHolds(magic: bytes, parts: seq<Part>, i: nat)
    requires Fits(magic, parts) && DistinctIds(parts) && i < |parts|
    ensures var e := Entries(parts, 4, map[]);
      parts[i].id in e && ReadAt(File(magic, parts), e[parts[i].id]) == Ok(parts[i].data)
  {
    EntriesLocate(parts, 4, map[], i);
    ReadsBack(magic, parts, i, Entries(parts, 4, map[])[parts[i].id]);
  }

  lemma {:induction false} EntriesOnly(parts: seq<Part>, id: uint32)
    requires forall i :: 0 <= i < |parts| ==> parts[i].id != id
    ensures id !in Entries(parts, 4, map[])
  {
    EntriesKeep(parts, 4, map[], id);
  }

  // ---- hour files -----------------------------------------------------------------------------

  /** What the head of an hour holds for each series. */
  type Head = map<uint32, seq<Sample>>

  function SortedIds(ids: set<uint32>): (r: seq<uint32>)
    ensures forall i, j :: 0 <= i < j < |r| ==> r[i] < r[j]
    ensures forall x :: x in r <==> x in ids
  {
    var r := Sorted(ids);
    assert forall i :: 0 <= i < |r| ==> r[i] in r;
    r
  }

  function RowsOf(pts: seq<Sample>): (r: seq<Row>)
    ensures |r| == |pts| && Uniform(r, 1)
  {
    seq(|pts|, i requires 0 <= i < |pts| => Row(pts[i].t, [pts[i].v]))
  }

  /** Samples as an hour file gives them back. */
  function Stored(pts: seq<Sample>): (r: seq<Sample>)
    ensures |r| == |pts|
  {
    seq(|pts|, i requires 0 <= i < |pts| => Sample(pts[i].t, F32(pts[i].v)))
  }

  lemma {:induction false} FlattenRaw(pts: seq<Sample>)
    ensures Flatten(RowsOf(pts)) == Stored(pts)
  {
    if pts != [] {
      assert RowsOf(pts)[1..] == RowsOf(pts[1..]);
      FlattenRaw(pts[1..]);
      assert Samples(pts[0].t, [pts[0].v]) == [Sample(pts[0].t, F32(pts[0].v))];
    }
  }

  /** A file's series and their points, before encoding. */
  type Table = map<uint32, seq<Row>>

  /** One compressed chunk per series, in the order of `ids`. */
  function PartsOf(z: Packer, table: Table, ids: seq<uint32>): (parts: seq<Part>)
    requires forall id <- ids :: id in table
    ensures |parts| == |ids|
    ensures forall i :: 0 <= i < |ids| ==> parts[i] == Part(ids[i], z.deflate(EncodeChunk(table[ids[i]])))
  {
    seq(|ids|, i requires 0 <= i < |ids| => Part(ids[i], z.deflate(EncodeChunk(table[ids[i]]))))
  }

  /** What a part of a table's file is, and that every series has one. */
  ghost predicate HoldsTable(z: Packer, parts: seq<Part>, table: Table) {
    && |parts| == |table| && DistinctIds(parts)
    && (forall p <- parts :: p.id in table && p.data == z.deflate(EncodeChunk(table[p.id])))
    && (forall id: uint32 :: id in table ==> exists i :: 0 <= i < |parts| && parts[i].id == id)
  }

  lemma {:induction false} PartsHold(z: Packer, table: Table, ids: seq<uint32>)
    requires |ids| == |table| && forall x: uint32 :: x in ids <==> x in table
    requires forall i, j :: 0 <= i < j < |ids| ==> ids[i] < ids[j]
    ensures HoldsTable(z, PartsOf(z, table, ids), table)
  {
    var parts := PartsOf(z, table, ids);
    forall id: uint32 | id in table ensures exists i :: 0 <= i < |parts| && parts[i].id == id {
      var i :| 0 <= i < |ids| && ids[i] == id;
      assert parts[i].id == id;
    }
  }

  function TableParts(z: Packer, table: Table): (parts: seq<Part>)
    ensures HoldsTable(z, parts, table)
  {
    var ids := SortedIds(table.Keys);
    SortedSize(table.Keys);
    assert |table.Keys| == |table|;
    PartsHold(z, table, ids);
    PartsOf(z, table, ids)
  }

  function TableFile(z: Packer, magic: bytes, table: Table): bytes {
    File(magic, TableParts(z, table))
  }

  function TableOf(head: Head): Table {
    map id <- head :: RowsOf(head[id])
  }

  function HourFile(z: Packer, head: Head): bytes {
    TableFile(z, RAW, TableOf(head))
  }

  /** What the file writer has put out after some chunks: its text, its index and its offset. */
  ghost predicate Written(w: bytes, index: bytes, offset: nat, magic: bytes, parts: seq<Part>) {
    && w == magic + Data(parts) && offset == 4 + |Data(parts)|
    && index == Index(parts, 4)
  }

  lemma {:induction false} DataSnoc(parts: seq<Part>, p: Part)
    ensures Data(parts + [p]) == Data(parts) + p.data
  {
    if parts == [] {
      assert (parts + [p])[1..] == [];
    } else {
      assert (parts + [p])[1..] == parts[1..] + [p];
      DataSnoc(parts[1..], p);
    }
  }

  lemma {:induction false} IndexSnoc(parts: seq<Part>, p: Part, off: nat, end: nat)
    requires end == off + |Data(parts)|
    ensures Index(parts + [p], off) == Index(parts, off) + Entry(p.id, end, |p.data|)
  {
    if parts == [] {
      assert (parts + [p])[1..] == [];
    } else {
      var len := |parts[0].data|;
      assert (parts + [p])[1..] == parts[1..] + [p];
      IndexSnoc(parts[1..], p, off + len, end);
      Assoc(Entry(parts[0].id, off, len), Index(parts[1..], off + len), Entry(p.id, end, |p.data|));
    }
  }

  lemma {:induction false} WrittenMore(w: bytes, index: bytes, offset: nat, magic: bytes, parts: seq<Part>, p: Part)
    requires Written(w, index, offset, magic, parts)
    ensures Written(w + p.data, index + Entry(p.id, offset, |p.data|), offset + |p.data|, magic, parts + [p])
  {
    DataSnoc(parts, p);
    IndexSnoc(parts, p, 4, offset);
    Assoc(magic, Data(parts), p.data);
  }

  /** The chunks while the offset advances, then the index, then the trailer. */
  method WriteFile(magic: bytes, parts: seq<Part>) returns (file: bytes)
    ensures file == File(magic, parts)
  {
    var w, index, offset: nat := magic, [], 4;
    assert parts[..0] == [];
    for i := 0 to |parts|
      invariant Written(w, index, offset, magic, parts[..i])
    {
      WrittenMore(w, index, offset, magic, parts[..i], parts[i]);
      Snoc(parts, i);
      w := w + parts[i].data;
      index := index + Entry(parts[i].id, offset, |parts[i].data|);
      offset := offset + |parts[i].data|;
    }
    assert parts[..|parts|] == parts;
    file := w + index + Trailer(offset, |parts|);
  }

  /** One compressed chunk per series, in id order. */
  method PackSeries(z: Packer, table: Table, ids: seq<uint32>) returns (parts: seq<Part>)
    requires forall id <- ids :: id in table
    ensures parts == PartsOf(z, table, ids)
  {
    parts := [];
    for i := 0 to |ids|
      invariant |parts| == i
      invariant forall j :: 0 <= j < i ==> parts[j] == Part(ids[j], z.deflate(EncodeChunk(table[ids[j]])))
    {
      var chunk := WriteChunk(table[ids[i]]);
      parts := parts + [Part(ids[i], z.deflate(chunk))];
    }
  }

  method WriteRaw(z: Packer, head: Head) returns (file: bytes)
    ensures file == HourFile(z, head)
  {
    var table := TableOf(head);
    assert table.Keys == head.Keys;
    var parts := PackSeries(z, table, SortedIds(head.Keys));
    file := WriteFile(RAW, parts);
  }

  function Per(magic: bytes): nat {
    if magic == ROLLUP then 3 else 1
  }

  lemma {:induction false} SeriesRoundTrip(z: Packer, magic: bytes, parts: seq<Part>, i: nat, rows: seq<Row>)
    requires Lossless(z) && Fits(magic, parts) && DistinctIds(parts) && i < |parts|
    requires parts[i].data == z.deflate(EncodeChunk(rows)) && Uniform(rows, Per(magic)) && |rows| < TWO63
    ensures ReadSeries(z, File(magic, parts), parts[i].id) == Ok(Flatten(rows))
  {
    FileOpens(magic, parts);
    FileHolds(magic, parts, i);
    ChunkRoundTrip(rows, Per(magic));
  }

  lemma {:induction false} SeriesAbsent(z: Packer, magic: bytes, parts: seq<Part>, id: uint32)
    requires Fits(magic, parts) && forall i :: 0 <= i < |parts| ==> parts[i].id != id
    ensures ReadSeries(z, File(magic, parts), id) == Ok([])
  {
    FileOpens(magic, parts);
    EntriesOnly(parts, id);
  }

  /** Every point of every series comes back from a file, and nothing else does. */
  lemma {:induction false} PartsRoundTrip(z: Packer, magic: bytes, parts: seq<Part>, table: Table, id: uint32)
    requires Lossless(z) && Fits(magic, parts) && HoldsTable(z, parts, table)
    requires forall i <- table :: |table[i]| < TWO63 && Uniform(table[i], Per(magic))
    ensures ReadSeries(z, File(magic, parts), id) == Ok(if id in table then Flatten(table[id]) else [])
  {
    if id in table {
      var i :| 0 <= i < |parts| && parts[i].id == id;
      assert parts[i] in parts;
      SeriesRoundTrip(z, magic, parts, i, table[id]);
    } else {
      forall i | 0 <= i < |parts| ensures parts[i].id != id { assert parts[i] in parts; }
      SeriesAbsent(z, magic, parts, id);
    }
  }

  lemma {:induction false} TableRoundTrip(z: Packer, magic: bytes, table: Table, id: uint32)
    requires magic == RAW || magic == ROLLUP
    requires Lossless(z) && |TableFile(z, magic, table)| < TWO63
    requires |table| < 0x1_0000_0000 && forall i <- table :: |table[i]| < TWO63 && Uniform(table[i], Per(magic))
    ensures ReadSeries(z, TableFile(z, magic, table), id) == Ok(if id in table then Flatten(table[id]) else [])
  {
    PartsRoundTrip(z, magic, TableParts(z, table), table, id);
  }

  lemma {:induction false} SameSize<S, T>(m: map<uint32, S>, m': map<uint32, T>)
    requires m.Keys == m'.Keys
    ensures |m| == |m'|
  {
    assert |m.Keys| == |m| && |m'.Keys| == |m'|;
  }

  /** Reading any series back from an hour file gives its times exactly and its values under F32;
      a series that is not in the head has no samples. */
  lemma {:induction false} HourFileRoundTrip(z: Packer, head: Head, id: uint32)
    requires Lossless(z) && |HourFile(z, head)| < TWO63
    requires |head| < 0x1_0000_0000 && forall i <- head :: |head[i]| < TWO63
    ensures ReadSeries(z, HourFile(z, head), id) == Ok(if id in head then Stored(head[id]) else [])
  {
    SameSize(head, TableOf(head));
    TableRoundTrip(z, RAW, TableOf(head), id);
    if id in head { FlattenRaw(head[id]); }
  }

  // ---- the store's view of its files ----------------------------------------------------------

  /** The series a file has chunks for. */
  function SeriesIn(file: bytes): set<uint32> {
    match OpenIndex(file) case Ok(fi) => fi.entries.Keys case Err => {}
  }

  /** An unreadable file or chunk has no samples. */
  function SamplesIn(z: Packer, file: bytes, id: uint32): seq<Sample> {
    match ReadSeries(z, file, id) case Ok(s) => s case Err => []
  }

  /** A written file lists exactly the series of its table. */
  lemma {:induction false} PartsSeries(z: Packer, magic: bytes, parts: seq<Part>, table: Table)
    requires Fits(magic, parts) && HoldsTable(z, parts, table)
    ensures SeriesIn(File(magic, parts)) == table.Keys
  {
    FileOpens(magic, parts);
    forall id: uint32 ensures id in Entries(parts, 4, map[]) <==> id in table {
      if id in table {
        var i :| 0 <= i < |parts| && parts[i].id == id;
        EntriesLocate(parts, 4, map[], i);
      } else {
        forall i | 0 <= i < |parts| ensures parts[i].id != id { assert parts[i] in parts; }
        EntriesOnly(parts, id);
      }
    }
  }

  lemma {:induction false} TableSeries(z: Packer, magic: bytes, table: Table)
    requires magic == RAW || magic == ROLLUP
    requires |TableFile(z, magic, table)| < TWO63 && |table| < 0x1_0000_0000
    ensures SeriesIn(TableFile(z, magic, table)) == table.Keys
  {
    PartsSeries(z, magic, TableParts(z, table), table);
  }

  lemma {:induction false} HourFileSeries(z: Packer, head: Head)
    requires |HourFile(z, head)| < TWO63 && |head| < 0x1_0000_0000
    ensures SeriesIn(HourFile(z, head)) == head.Keys
  {
    SameSize(head, TableOf(head));
    TableSeries(z, RAW, TableOf(head));
  }
}
