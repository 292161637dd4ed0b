/**
 * The sharded PROJJSON container: its writer (scripts/gen_crs_tables.py:635-672)
 * and its independent reader (scripts/verify_crs_tables.py:117-135). A document
 * is its JSON text in UTF-8; the block compressor is any lossless one.
 */
module Container {
  import opened Basics

  type Byte = b: int | 0 <= b < 256

  const SHARD: nat := 64
  const MAGIC: seq<Byte> := [0x58, 0x50, 0x4A, 0x31]
  const NEWLINE: Byte := 10
  const LIMIT32: nat := 0x1_0000_0000
  const LIMIT16: nat := 0x1_0000

  /** `compress`, and `decompress` with the length of what was compressed. */
  datatype Codec = Codec(compress: seq<Byte> -> seq<Byte>, decompress: (seq<Byte>, nat) -> Option<seq<Byte>>)

  ghost predicate Lossless(codec: Codec) {
    forall raw: seq<Byte> :: codec.decompress(codec.compress(raw), |raw|) == Some(raw)
  }

  // ---- fields -----------------------------------------------------------------------------------

  function Octet(n: nat): (b: Byte)
    ensures b == n % 256
  {
    var low: int := n % 256;
    low
  }

  /** `struct.pack("<I")`: `None` where the value does not fit. */
  function Pack32(n: int): (bytes: Option<seq<Byte>>)
    ensures bytes.Some? <==> 0 <= n < LIMIT32
    ensures bytes.Some? ==> |bytes.value| == 4
  {
    if 0 <= n < LIMIT32 then Some([Octet(n), Octet(n / 256), Octet(n / 65536), Octet(n / 16777216)]) else None
  }

  function Pack16(n: int): (bytes: Option<seq<Byte>>)
    ensures bytes.Some? <==> 0 <= n < LIMIT16
    ensures bytes.Some? ==> |bytes.value| == 2
  {
    if 0 <= n < LIMIT16 then Some([Octet(n), Octet(n / 256)]) else None
  }

  function LittleEndian(a: nat, b: nat, c: nat, d: nat): nat {
    a + 256 * b + 65536 * c + 16777216 * d
  }

  function Unpack32(raw: seq<Byte>, at: nat): Option<nat> {
    if at + 4 > |raw| then None
    else Some(LittleEndian(raw[at], raw[at + 1], raw[at + 2], raw[at + 3]))
  }

  function Unpack16(raw: seq<Byte>, at: nat): Option<nat> {
    if at + 2 > |raw| then None else Some(LittleEndian(raw[at], raw[at + 1], 0, 0))
  }

  lemma At(a: seq<Byte>, b: seq<Byte>, k: nat)
    requires k < |b|
    ensures (a + b)[|a| + k] == b[k]
  {
  }

  lemma Prefix(a: seq<Byte>, b: seq<Byte>, k: nat)
    requires k < |a|
    ensures (a + b)[k] == a[k]
  {
  }

  /** Four bytes are read from where they stand. */
  lemma UnpacksBytes(a: seq<Byte>, bytes: seq<Byte>, b: seq<Byte>)
    requires |bytes| == 4
    ensures Unpack32(a + (bytes + b), |a|) == Some(LittleEndian(bytes[0], bytes[1], bytes[2], bytes[3]))
  {
    var all := a + (bytes + b);
    assert all[|a|] == bytes[0] && all[|a| + 1] == bytes[1] && all[|a| + 2] == bytes[2] && all[|a| + 3] == bytes[3];
  }

  lemma Unpacks32(a: seq<Byte>, n: nat, b: seq<Byte>)
    requires n < LIMIT32
    ensures Unpack32(a + (Pack32(n).value + b), |a|) == Some(n)
  {
    PackedBytes(n);
    UnpacksBytes(a, Pack32(n).value, b);
    Digits256(n);
  }

  lemma PackedBytes(n: nat)
    requires n < LIMIT32
    ensures Pack32(n).value == [Octet(n), Octet(n / 256), Octet(n / 65536), Octet(n / 16777216)]
  {
  }

  /** The digits of a number to base 256 make up the number. */
  lemma Digits256(n: nat)
    requires n < LIMIT32
    ensures LittleEndian(Octet(n), Octet(n / 256), Octet(n / 65536), Octet(n / 16777216)) == n
  {
    Digit(n);
    Digit(n / 256);
    Digit(n / 65536);
    Quotients(n);
  }

  lemma Digit(n: nat)
    ensures Octet(n) + 256 * (n / 256) == n
  {
  }

  lemma Quotients(n: nat)
    requires n < LIMIT32
    ensures n / 65536 == n / 256 / 256 && n / 16777216 == n / 65536 / 256
    ensures Octet(n / 16777216) == n / 16777216
  {
  }

  lemma Unpacks16(a: seq<Byte>, n: nat, b: seq<Byte>)
    requires n < LIMIT16
    ensures Unpack16(a + (Pack16(n).value + b), |a|) == Some(n)
  {
    var bytes := Pack16(n).value;
    var all := a + (bytes + b);
    assert all[|a|] == bytes[0] && all[|a| + 1] == bytes[1];
  }

  // ---- lines --------------------------------------------------------------------------------------

  predicate OneLine(line: seq<Byte>) {
    forall i :: 0 <= i < |line| ==> line[i] != NEWLINE
  }

  /** `b"\n".join`. */
  function Join(lines: seq<seq<Byte>>): seq<Byte> {
    if lines == [] then []
    else if |lines| == 1 then lines[0]
    else Join(lines[..|lines| - 1]) + ([NEWLINE] + lines[|lines| - 1])
  }

  /** `split("\n")`. */
  function Split(raw: seq<Byte>): (lines: seq<seq<Byte>>)
    ensures lines != []
  {
    if raw == [] then [[]]
    else
      var lines, last := Split(raw[..|raw| - 1]), raw[|raw| - 1];
      if last == NEWLINE then lines + [[]]
      else lines[|lines| - 1 := lines[|lines| - 1] + [last]]
  }

  lemma {:induction false} SplitLine(raw: seq<Byte>, line: seq<Byte>)
    requires OneLine(line)
    ensures Split(raw + line) == Split(raw)[|Split(raw)| - 1 := Split(raw)[|Split(raw)| - 1] + line]
    decreases |line|
  {
    var lines := Split(raw);
    if line == [] {
      assert raw + line == raw && lines[|lines| - 1] + [] == lines[|lines| - 1];
    } else {
      var before, last := line[..|line| - 1], line[|line| - 1];
      assert (raw + line)[..|raw + line| - 1] == raw + before;
      SplitLine(raw, before);
      Assoc(lines[|lines| - 1], before, [last]);
      assert before + [last] == line;
    }
  }

  lemma SplitNext(raw: seq<Byte>, line: seq<Byte>)
    requires OneLine(line)
    ensures Split(raw + ([NEWLINE] + line)) == Split(raw) + [line]
  {
    var ended := raw + [NEWLINE];
    assert ended[..|raw|] == raw;
    assert Split(ended) == Split(raw) + [[]];
    SplitLine(ended, line);
    Assoc(raw, [NEWLINE], line);
    assert [] + line == line;
  }

  /** Lines joined are split again. */
  lemma {:induction false} SplitJoin(lines: seq<seq<Byte>>)
    requires lines != [] && forall i :: 0 <= i < |lines| ==> OneLine(lines[i])
    ensures Split(Join(lines)) == lines
  {
    if |lines| == 1 {
      SplitLine([], lines[0]);
      assert [] + lines[0] == lines[0];
    } else {
      var before, last := lines[..|lines| - 1], lines[|lines| - 1];
      SplitJoin(before);
      SplitNext(Join(before), last);
      assert before + [last] == lines;
    }
  }

  // ---- what is written ----------------------------------------------------------------------------

  /** The documents by their codes, and the codes in order. */
  datatype Docs = Docs(codes: seq<int>, texts: map<int, seq<Byte>>) {
    predicate Valid() {
      && (forall i :: 0 <= i < |codes| ==> codes[i] in texts)
      && (forall i, j :: 0 <= i < j < |codes| ==> codes[i] < codes[j])
    }

    ghost predicate Complete() {
      forall code :: code in texts <==> code in codes
    }

    ghost predicate OneLiners() {
      forall code :: code in texts ==> OneLine(texts[code])
    }
  }

  function ShardCount(n: nat): nat {
    (n + SHARD - 1) / SHARD
  }

  function GroupEnd(n: nat, shard: nat): nat
    requires shard < ShardCount(n)
  {
    if shard * SHARD + SHARD < n then shard * SHARD + SHARD else n
  }

  function Lines(d: Docs, low: nat, high: nat): (lines: seq<seq<Byte>>)
    requires d.Valid() && low <= high <= |d.codes|
    ensures |lines| == high - low
  {
    seq(high - low, i requires 0 <= i < high - low => d.texts[d.codes[low + i]])
  }

  function Group(d: Docs, shard: nat): (lines: seq<seq<Byte>>)
    requires d.Valid() && shard < ShardCount(|d.codes|)
    ensures 0 < |lines| <= SHARD
  {
    Lines(d, shard * SHARD, GroupEnd(|d.codes|, shard))
  }

  function Block(codec: Codec, d: Docs, shard: nat): seq<Byte>
    requires d.Valid() && shard < ShardCount(|d.codes|)
  {
    codec.compress(Join(Group(d, shard)))
  }

  /** The blocks of the first shards. */
  function Blob(codec: Codec, d: Docs, shards: nat): seq<Byte>
    requires d.Valid() && shards <= ShardCount(|d.codes|)
  {
    if shards == 0 then [] else Blob(codec, d, shards - 1) + Block(codec, d, shards - 1)
  }

  datatype Shard = Shard(offset: nat, compLen: nat, rawLen: nat)

  function ShardOf(codec: Codec, d: Docs, shard: nat): Shard
    requires d.Valid() && shard < ShardCount(|d.codes|)
  {
    Shard(|Blob(codec, d, shard)|, |Block(codec, d, shard)|, |Join(Group(d, shard))|)
  }

  function PackShard(shard: Shard): (bytes: Option<seq<Byte>>)
    ensures bytes.Some? <==> shard.offset < LIMIT32 && shard.compLen < LIMIT32 && shard.rawLen < LIMIT32
    ensures bytes.Some? ==> |bytes.value| == 12
  {
    match (Pack32(shard.offset), Pack32(shard.compLen), Pack32(shard.rawLen))
    case (Some(a), Some(b), Some(c)) => Some(a + (b + c))
    case _ => None
  }

  datatype Entry = Entry(code: int, shard: nat, line: nat)

  function PackEntry(entry: Entry): (bytes: Option<seq<Byte>>)
    ensures bytes.Some? <==> 0 <= entry.code < LIMIT32 && entry.shard < LIMIT16 && entry.line < LIMIT16
    ensures bytes.Some? ==> |bytes.value| == 8
  {
    match (Pack32(entry.code), Pack16(entry.shard), Pack16(entry.line))
    case (Some(a), Some(b), Some(c)) => Some(a + (b + c))
    case _ => None
  }

  function EntryOf(d: Docs, i: nat): Entry
    requires i < |d.codes|
  {
    Entry(d.codes[i], i / SHARD, i % SHARD)
  }

  /** The packed shard table. */
  function Table(shards: seq<Shard>): (bytes: Option<seq<Byte>>)
    ensures bytes.Some? <==> forall i :: 0 <= i < |shards| ==> PackShard(shards[i]).Some?
    ensures bytes.Some? ==> |bytes.value| == 12 * |shards|
  {
    if shards == [] then Some([])
    else
      var before, last := Table(shards[..|shards| - 1]), PackShard(shards[|shards| - 1]);
      if before.Some? && last.Some? then Some(before.value + last.value) else None
  }

  /** The packed index. */
  function Index(entries: seq<Entry>): (bytes: Option<seq<Byte>>)
    ensures bytes.Some? <==> forall i :: 0 <= i < |entries| ==> PackEntry(entries[i]).Some?
    ensures bytes.Some? ==> |bytes.value| == 8 * |entries|
  {
    if entries == [] then Some([])
    else
      var before, last := Index(entries[..|entries| - 1]), PackEntry(entries[|entries| - 1]);
      if before.Some? && last.Some? then Some(before.value + last.value) else None
  }

  function Shards(codec: Codec, d: Docs, n: nat): (shards: seq<Shard>)
    requires d.Valid() && n <= ShardCount(|d.codes|)
    ensures |shards| == n
  {
    seq(n, s requires 0 <= s < n => ShardOf(codec, d, s))
  }

  function Entries(d: Docs, n: nat): (entries: seq<Entry>)
    requires n <= |d.codes|
    ensures |entries| == n
  {
    seq(n, i requires 0 <= i < n => EntryOf(d, i))
  }

  function Assembled(shards: seq<Shard>, entries: seq<Entry>, blob: seq<Byte>): Option<seq<Byte>> {
    match (Pack32(|shards|), Pack32(|entries|), Table(shards), Index(entries))
    case (Some(a), Some(b), Some(table), Some(index)) => Some(MAGIC + (a + (b + (table + (index + blob)))))
    case _ => None
  }

  /** `pack_projjson`. */
  function Packed(codec: Codec, d: Docs): Option<seq<Byte>>
    requires d.Valid()
  {
    var n := ShardCount(|d.codes|);
    Assembled(Shards(codec, d, n), Entries(d, |d.codes|), Blob(codec, d, n))
  }

  method PackProjjson(codec: Codec, d: Docs) returns (out: Option<seq<Byte>>)
    requires d.Valid()
    ensures out == Packed(codec, d)
  {
    var shards: seq<Shard>, index: seq<Entry>, blob: seq<Byte> := [], [], [];
    var start := 0;
    while start < |d.codes|
      invariant start == |shards| * SHARD && |shards| <= ShardCount(|d.codes|)
      invariant start < |d.codes| <==> |shards| < ShardCount(|d.codes|)
      invariant shards == Shards(codec, d, |shards|) && blob == Blob(codec, d, |shards|)
      invariant index == Entries(d, if start < |d.codes| then start else |d.codes|)
    {
      var end := if start + SHARD < |d.codes| then start + SHARD else |d.codes|;
      var raw := Join(Lines(d, start, end));
      var block := codec.compress(raw);
      index := IndexGroup(d, index, |shards|, start, end);
      ShardsGrow(codec, d, |shards|);
      shards := shards + [Shard(|blob|, |block|, |raw|)];
      blob := blob + block;
      start := start + SHARD;
    }
    out := Assembled(shards, index, blob);
  }

  lemma ShardsGrow(codec: Codec, d: Docs, n: nat)
    requires d.Valid() && n < ShardCount(|d.codes|)
    ensures Shards(codec, d, n + 1) == Shards(codec, d, n) + [ShardOf(codec, d, n)]
  {
  }

  method IndexGroup(d: Docs, index: seq<Entry>, shard: nat, start: nat, end: nat) returns (more: seq<Entry>)
    requires start == shard * SHARD && start <= end <= |d.codes| && end - start <= SHARD
    requires index == Entries(d, start)
    ensures more == Entries(d, end)
  {
    more := index;
    for line := 0 to end - start
      invariant more == Entries(d, start + line)
    {
      InShard(shard, line);
      more := more + [Entry(d.codes[start + line], shard, line)];
    }
  }

  lemma InShard(shard: nat, line: nat)
    requires line < SHARD
    ensures (shard * SHARD + line) / SHARD == shard && (shard * SHARD + line) % SHARD == line
  {
  }

  // ---- what is read -------------------------------------------------------------------------------

  function UnpackShard(raw: seq<Byte>, at: nat): Option<Shard> {
    match (Unpack32(raw, at), Unpack32(raw, at + 4), Unpack32(raw, at + 8))
    case (Some(offset), Some(compLen), Some(rawLen)) => Some(Shard(offset, compLen, rawLen))
    case _ => None
  }

  function UnpackEntry(raw: seq<Byte>, at: nat): Option<Entry> {
    match (Unpack32(raw, at), Unpack16(raw, at + 4), Unpack16(raw, at + 6))
    case (Some(code), Some(shard), Some(line)) => Some(Entry(code, shard, line))
    case _ => None
  }

  /** The first shards of the table. */
  function ReadTable(raw: seq<Byte>, n: nat): Option<seq<Shard>> {
    if n == 0 then Some([])
    else
      match (ReadTable(raw, n - 1), UnpackShard(raw, 12 + (n - 1) * 12))
      case (Some(before), Some(last)) => Some(before + [last])
      case _ => None
  }

  /** A slice as Python takes it: cut at the end. */
  function Slice(raw: seq<Byte>, low: nat, high: nat): seq<Byte> {
    var end := if high < |raw| then high else |raw|;
    if low < end then raw[low..end] else []
  }

  function IndexAt(shards: nat): nat {
    12 + shards * 12
  }

  function BlobAt(shards: nat, entries: nat): nat {
    IndexAt(shards) + entries * 8
  }

  function BlockOf(raw: seq<Byte>, blobAt: nat, shard: Shard): seq<Byte> {
    Slice(raw, blobAt + shard.offset, blobAt + shard.offset + shard.compLen)
  }

  /** A shard's documents. */
  function ReadShard(codec: Codec, raw: seq<Byte>, shards: seq<Shard>, blobAt: nat,
                     shard: nat): Option<seq<seq<Byte>>> {
    if shard >= |shards| then None
    else
      var text := codec.decompress(BlockOf(raw, blobAt, shards[shard]), shards[shard].rawLen);
      if text.None? then None else Some(Split(text.value))
  }

  /** The documents of the first entries. */
  function ReadEntries(codec: Codec, raw: seq<Byte>, shards: seq<Shard>, indexAt: nat, blobAt: nat,
                       n: nat): Option<map<int, seq<Byte>>> {
    if n == 0 then Some(map[])
    else
      match (ReadEntries(codec, raw, shards, indexAt, blobAt, n - 1), UnpackEntry(raw, indexAt + (n - 1) * 8))
      case (Some(out), Some(entry)) => WithEntry(out, entry, ReadShard(codec, raw, shards, blobAt, entry.shard))
      case _ => None
  }

  function WithEntry(out: map<int, seq<Byte>>, entry: Entry,
                     lines: Option<seq<seq<Byte>>>): Option<map<int, seq<Byte>>> {
    if lines.Some? && entry.line < |lines.value| then Some(out[entry.code := lines.value[entry.line]]) else None
  }

  function ReadDocs(codec: Codec, raw: seq<Byte>, shards: nat, entries: nat): Option<map<int, seq<Byte>>> {
    var table := ReadTable(raw, shards);
    if table.None? then None
    else ReadEntries(codec, raw, table.value, IndexAt(shards), BlobAt(shards, entries), entries)
  }

  function Read(codec: Codec, raw: seq<Byte>): Option<map<int, seq<Byte>>> {
    var shards, entries := Unpack32(raw, 4), Unpack32(raw, 8);
    if |raw| < 4 || raw[..4] != MAGIC || shards.None? || entries.None? then None
    else ReadDocs(codec, raw, shards.value, entries.value)
  }

  /** `read_committed_blob`, with its cache of the shards read so far. */
  method ReadCommittedBlob(codec: Codec, raw: seq<Byte>) returns (out: Option<map<int, seq<Byte>>>)
    ensures out == Read(codec, raw)
  {
    if |raw| < 4 || raw[..4] != MAGIC {
      return None;
    }
    var shards, entries := Unpack32(raw, 4), Unpack32(raw, 8);
    if shards.None? || entries.None? {
      return None;
    }
    var table := ReadShardTable(raw, shards.value);
    if table.None? {
      return None;
    }
    out := ReadAllEntries(codec, raw, table.value, IndexAt(shards.value), BlobAt(shards.value, entries.value),
                          entries.value);
  }

  lemma {:induction false} TableFails(raw: seq<Byte>, i: nat, n: nat)
    requires i <= n && ReadTable(raw, i).None?
    ensures ReadTable(raw, n).None?
  {
    if i < n {
      TableFails(raw, i, n - 1);
    }
  }

  method ReadShardTable(raw: seq<Byte>, n: nat) returns (table: Option<seq<Shard>>)
    ensures table == ReadTable(raw, n)
  {
    var shards: seq<Shard> := [];
    for i := 0 to n
      invariant Some(shards) == ReadTable(raw, i)
    {
      var shard := UnpackShard(raw, 12 + i * 12);
      if shard.None? {
        TableFails(raw, i + 1, n);
        return None;
      }
      shards := shards + [shard.value];
    }
    return Some(shards);
  }

  lemma {:induction false} EntriesFail(codec: Codec, raw: seq<Byte>, shards: seq<Shard>, indexAt: nat, blobAt: nat,
                                       i: nat, n: nat)
    requires i <= n && ReadEntries(codec, raw, shards, indexAt, blobAt, i).None?
    ensures ReadEntries(codec, raw, shards, indexAt, blobAt, n).None?
  {
    if i < n {
      EntriesFail(codec, raw, shards, indexAt, blobAt, i, n - 1);
    }
  }

  /** Each cached shard's lines are its documents. */
  ghost predicate Cached(codec: Codec, raw: seq<Byte>, shards: seq<Shard>, blobAt: nat,
                         cache: map<nat, seq<seq<Byte>>>) {
    forall s :: s in cache ==> ReadShard(codec, raw, shards, blobAt, s) == Some(cache[s])
  }

  method Lookup(codec: Codec, raw: seq<Byte>, shards: seq<Shard>, blobAt: nat, shard: nat,
                cache: map<nat, seq<seq<Byte>>>)
    returns (lines: Option<seq<seq<Byte>>>, more: map<nat, seq<seq<Byte>>>)
    requires Cached(codec, raw, shards, blobAt, cache)
    ensures lines == ReadShard(codec, raw, shards, blobAt, shard) && Cached(codec, raw, shards, blobAt, more)
  {
    more := cache;
    if shard in cache {
      return Some(cache[shard]), cache;
    }
    lines := ReadShard(codec, raw, shards, blobAt, shard);
    if lines.Some? {
      more := cache[shard := lines.value];
    }
  }

  method ReadNext(codec: Codec, raw: seq<Byte>, shards: seq<Shard>, indexAt: nat, blobAt: nat, i: nat,
                  docs: map<int, seq<Byte>>, cache: map<nat, seq<seq<Byte>>>)
    returns (out: Option<map<int, seq<Byte>>>, more: map<nat, seq<seq<Byte>>>)
    requires ReadEntries(codec, raw, shards, indexAt, blobAt, i) == Some(docs)
    requires Cached(codec, raw, shards, blobAt, cache)
    ensures out == ReadEntries(codec, raw, shards, indexAt, blobAt, i + 1) && Cached(codec, raw, shards, blobAt, more)
  {
    var entry := UnpackEntry(raw, indexAt + i * 8);
    if entry.None? {
      return None, cache;
    }
    var lines: Option<seq<seq<Byte>>>;
    lines, more := Lookup(codec, raw, shards, blobAt, entry.value.shard, cache);
    out := WithEntry(docs, entry.value, lines);
  }

  method ReadAllEntries(codec: Codec, raw: seq<Byte>, shards: seq<Shard>, indexAt: nat, blobAt: nat, n: nat)
    returns (out: Option<map<int, seq<Byte>>>)
    ensures out == ReadEntries(codec, raw, shards, indexAt, blobAt, n)
  {
    var cache: map<nat, seq<seq<Byte>>> := map[];
    out := Some(map[]);
    for i := 0 to n
      invariant out.Some? && out == ReadEntries(codec, raw, shards, indexAt, blobAt, i)
      invariant Cached(codec, raw, shards, blobAt, cache)
    {
      out, cache := ReadNext(codec, raw, shards, indexAt, blobAt, i, out.value, cache);
      if out.None? {
        EntriesFail(codec, raw, shards, indexAt, blobAt, i + 1, n);
        return;
      }
    }
  }

  // ---- the round trip -------------------------------------------------------------------------------

  /** A field is read wherever it is. */
  lemma Shifts(a: seq<Byte>, b: seq<Byte>, at: nat)
    ensures Unpack32(a + b, |a| + at) == Unpack32(b, at)
    ensures Unpack16(a + b, |a| + at) == Unpack16(b, at)
  {
  }

  lemma ShardReads(shard: Shard, b: seq<Byte>)
    requires PackShard(shard).Some?
    ensures UnpackShard(PackShard(shard).value + b, 0) == Some(shard)
  {
    var x, y, z := Pack32(shard.offset).value, Pack32(shard.compLen).value, Pack32(shard.rawLen).value;
    Assoc(x, y + z, b);
    Assoc(y, z, b);
    Assoc(x, y, z + b);
    Unpacks32([], shard.offset, y + (z + b));
    assert [] + (x + (y + (z + b))) == x + (y + (z + b));
    Unpacks32(x, shard.compLen, z + b);
    Unpacks32(x + y, shard.rawLen, b);
  }

  lemma EntryReads(entry: Entry, b: seq<Byte>)
    requires PackEntry(entry).Some?
    ensures UnpackEntry(PackEntry(entry).value + b, 0) == Some(entry)
  {
    var x, y, z := Pack32(entry.code).value, Pack16(entry.shard).value, Pack16(entry.line).value;
    Assoc(x, y + z, b);
    Assoc(y, z, b);
    Assoc(x, y, z + b);
    Unpacks32([], entry.code, y + (z + b));
    assert [] + (x + (y + (z + b))) == x + (y + (z + b));
    Unpacks16(x, entry.shard, z + b);
    Unpacks16(x + y, entry.line, b);
  }

  /** A packed table, with bytes after it, at its i-th entry. */
  lemma {:induction false} TableAt(shards: seq<Shard>, i: nat, b: seq<Byte>)
    requires Table(shards).Some? && i < |shards|
    ensures UnpackShard(Table(shards).value + b, i * 12) == Some(shards[i])
    decreases |shards|
  {
    var before, last := shards[..|shards| - 1], shards[|shards| - 1];
    var a, z := Table(before).value, PackShard(last).value;
    Assoc(a, z, b);
    if i < |before| {
      TableAt(before, i, z + b);
    } else {
      ShardReads(last, b);
      ShardShifts(a, z + b, 0);
    }
  }

  lemma ShardShifts(a: seq<Byte>, b: seq<Byte>, at: nat)
    ensures UnpackShard(a + b, |a| + at) == UnpackShard(b, at)
  {
    Shifts(a, b, at);
    Shifts(a, b, at + 4);
    Shifts(a, b, at + 8);
  }

  lemma EntryShifts(a: seq<Byte>, b: seq<Byte>, at: nat)
    ensures UnpackEntry(a + b, |a| + at) == UnpackEntry(b, at)
  {
    Shifts(a, b, at);
    Shifts(a, b, at + 4);
    Shifts(a, b, at + 6);
  }

  lemma {:induction false} IndexedAt(entries: seq<Entry>, i: nat, b: seq<Byte>)
    requires Index(entries).Some? && i < |entries|
    ensures UnpackEntry(Index(entries).value + b, i * 8) == Some(entries[i])
    decreases |entries|
  {
    var before, last := entries[..|entries| - 1], entries[|entries| - 1];
    var a, z := Index(before).value, PackEntry(last).value;
    Assoc(a, z, b);
    if i < |before| {
      IndexedAt(before, i, z + b);
    } else {
      EntryReads(last, b);
      EntryShifts(a, z + b, 0);
    }
  }

  /** Where the parts of a container begin. */
  ghost predicate Laid(raw: seq<Byte>, shards: seq<Shard>, entries: seq<Entry>, blob: seq<Byte>) {
    && |raw| >= 12 && raw[..4] == MAGIC && Unpack32(raw, 4) == Some(|shards|) && Unpack32(raw, 8) == Some(|entries|)
    && Table(shards).Some? && Index(entries).Some?
    && raw[12..] == Table(shards).value + (Index(entries).value + blob)
  }

  lemma Lays(shards: seq<Shard>, entries: seq<Entry>, blob: seq<Byte>)
    requires Assembled(shards, entries, blob).Some?
    ensures Laid(Assembled(shards, entries, blob).value, shards, entries, blob)
  {
    var a, b := Pack32(|shards|).value, Pack32(|entries|).value;
    var rest := Table(shards).value + (Index(entries).value + blob);
    var raw := MAGIC + (a + (b + rest));
    Unpacks32(MAGIC, |shards|, b + rest);
    Assoc(MAGIC, a, b + rest);
    Unpacks32(MAGIC + a, |entries|, rest);
    assert MAGIC + a + b + rest == raw by {
      Assoc(MAGIC + a, b, rest);
    }
    assert raw[12..] == rest;
    assert raw[..4] == MAGIC;
  }

  lemma TableEntryRead(raw: seq<Byte>, shards: seq<Shard>, entries: seq<Entry>, blob: seq<Byte>, i: nat)
    requires Laid(raw, shards, entries, blob) && i < |shards|
    ensures UnpackShard(raw, 12 + i * 12) == Some(shards[i])
  {
    assert raw == raw[..12] + raw[12..];
    TableAt(shards, i, Index(entries).value + blob);
    ShardShifts(raw[..12], raw[12..], i * 12);
  }

  lemma {:induction false} TableRead(raw: seq<Byte>, shards: seq<Shard>, n: nat)
    requires n <= |shards| && forall i :: 0 <= i < |shards| ==> UnpackShard(raw, 12 + i * 12) == Some(shards[i])
    ensures ReadTable(raw, n) == Some(shards[..n])
  {
    if n > 0 {
      TableRead(raw, shards, n - 1);
      assert UnpackShard(raw, 12 + (n - 1) * 12) == Some(shards[n - 1]);
      assert shards[..n] == shards[..n - 1] + [shards[n - 1]];
    }
  }

  lemma EntryRead(raw: seq<Byte>, shards: seq<Shard>, entries: seq<Entry>, blob: seq<Byte>, i: nat)
    requires Laid(raw, shards, entries, blob) && i < |entries|
    ensures UnpackEntry(raw, IndexAt(|shards|) + i * 8) == Some(entries[i])
  {
    var head := raw[..12] + Table(shards).value;
    assert raw == raw[..12] + raw[12..];
    Assoc(raw[..12], Table(shards).value, Index(entries).value + blob);
    IndexedAt(entries, i, blob);
    EntryShifts(head, Index(entries).value + blob, i * 8);
  }

  lemma SliceIs(raw: seq<Byte>, low: nat, high: nat)
    requires low <= high <= |raw|
    ensures Slice(raw, low, high) == raw[low..high]
  {
  }

  lemma BlobSlice(raw: seq<Byte>, shards: seq<Shard>, entries: seq<Entry>, blob: seq<Byte>, low: nat, length: nat,
                  from: nat)
    requires Laid(raw, shards, entries, blob) && low + length <= |blob|
    requires from == 12 + |shards| * 12 + |entries| * 8 + low
    ensures Slice(raw, from, from + length) == blob[low..low + length]
  {
    var head := raw[..12] + (Table(shards).value + Index(entries).value);
    assert raw == raw[..12] + raw[12..];
    Assoc(Table(shards).value, Index(entries).value, blob);
    Assoc(raw[..12], Table(shards).value + Index(entries).value, blob);
    SliceAfter(raw, head, blob, low, low + length);
    SliceIs(raw, from, from + length);
  }

  ghost function Blocks(codec: Codec, d: Docs, n: nat): (blocks: seq<seq<Byte>>)
    requires d.Valid() && n <= ShardCount(|d.codes|)
    ensures |blocks| == n
  {
    if n == 0 then [] else Blocks(codec, d, n - 1) + [Block(codec, d, n - 1)]
  }

  lemma {:induction false} BlobIsFlat(codec: Codec, d: Docs, n: nat)
    requires d.Valid() && n <= ShardCount(|d.codes|)
    ensures Blob(codec, d, n) == Flatten(Blocks(codec, d, n))
  {
    if n > 0 {
      BlobIsFlat(codec, d, n - 1);
      FlattenAppend(Blocks(codec, d, n - 1), Block(codec, d, n - 1));
    }
  }

  lemma {:induction false} BlocksBefore(codec: Codec, d: Docs, shard: nat, n: nat)
    requires d.Valid() && shard <= n <= ShardCount(|d.codes|)
    ensures Blocks(codec, d, n)[..shard] == Blocks(codec, d, shard)
  {
    if shard < n {
      BlocksBefore(codec, d, shard, n - 1);
      SliceBefore(Blocks(codec, d, n), Blocks(codec, d, n - 1), [Block(codec, d, n - 1)], 0, shard);
    }
  }

  lemma {:induction false} BlockAt(codec: Codec, d: Docs, shard: nat, n: nat)
    requires d.Valid() && shard < n <= ShardCount(|d.codes|)
    ensures Blocks(codec, d, n)[shard] == Block(codec, d, shard)
  {
    if shard < n - 1 {
      BlockAt(codec, d, shard, n - 1);
    }
  }

  /** A shard's block within the blob. */
  lemma {:induction false} BlockIn(codec: Codec, d: Docs, shard: nat, n: nat)
    requires d.Valid() && shard < n <= ShardCount(|d.codes|)
    ensures var at, length := |Blob(codec, d, shard)|, |Block(codec, d, shard)|;
            at + length <= |Blob(codec, d, n)| && Blob(codec, d, n)[at..at + length] == Block(codec, d, shard)
  {
    BlobIsFlat(codec, d, shard);
    BlobIsFlat(codec, d, n);
    BlocksBefore(codec, d, shard, n);
    BlockAt(codec, d, shard, n);
    FlattenSlice(Blocks(codec, d, n), Blocks(codec, d, shard), Block(codec, d, shard));
  }

  /** A shard whose block is where the table says. */
  lemma BlockReads(codec: Codec, raw: seq<Byte>, shards: seq<Shard>, blobAt: nat, shard: nat, text: seq<Byte>)
    requires Lossless(codec) && shard < |shards| && shards[shard].rawLen == |text|
    requires BlockOf(raw, blobAt, shards[shard]) == codec.compress(text)
    ensures ReadShard(codec, raw, shards, blobAt, shard) == Some(Split(text))
  {
    assert codec.decompress(codec.compress(text), |text|) == Some(text);
  }

  lemma {:induction false} BlockIsAt(codec: Codec, d: Docs, raw: seq<Byte>, shards: seq<Shard>, entries: seq<Entry>,
                                     shard: nat)
    requires d.Valid() && shard < ShardCount(|d.codes|) == |shards|
    requires Laid(raw, shards, entries, Blob(codec, d, |shards|))
    ensures BlockOf(raw, BlobAt(|shards|, |entries|), ShardOf(codec, d, shard)) == Block(codec, d, shard)
  {
    var at, length := |Blob(codec, d, shard)|, |Block(codec, d, shard)|;
    BlockIn(codec, d, shard, |shards|);
    var from := BlobAt(|shards|, |entries|) + at;
    BlobSlice(raw, shards, entries, Blob(codec, d, |shards|), at, length, from);
    assert BlockOf(raw, BlobAt(|shards|, |entries|), ShardOf(codec, d, shard)) == Slice(raw, from, from + length);
  }

  lemma ShardRead(codec: Codec, d: Docs, raw: seq<Byte>, shards: seq<Shard>, shard: nat, blobAt: nat)
    requires Lossless(codec) && d.Valid() && d.OneLiners() && shard < ShardCount(|d.codes|) == |shards|
    requires shards[shard] == ShardOf(codec, d, shard)
    requires BlockOf(raw, blobAt, ShardOf(codec, d, shard)) == Block(codec, d, shard)
    ensures ReadShard(codec, raw, shards, blobAt, shard) == Some(Group(d, shard))
  {
    BlockReads(codec, raw, shards, blobAt, shard, Join(Group(d, shard)));
    GroupIsLines(d, shard);
    SplitJoin(Group(d, shard));
  }

  lemma GroupIsLines(d: Docs, shard: nat)
    requires d.Valid() && d.OneLiners() && shard < ShardCount(|d.codes|)
    ensures forall i :: 0 <= i < |Group(d, shard)| ==> OneLine(Group(d, shard)[i])
  {
    var group := Group(d, shard);
    forall i | 0 <= i < |group| ensures OneLine(group[i]) {
      var code := d.codes[shard * SHARD + i];
      assert code in d.texts && group[i] == d.texts[code];
    }
  }

  /** The documents of the first codes. */
  ghost function FirstDocs(d: Docs, n: nat): map<int, seq<Byte>>
    requires d.Valid() && n <= |d.codes|
  {
    if n == 0 then map[] else FirstDocs(d, n - 1)[d.codes[n - 1] := d.texts[d.codes[n - 1]]]
  }

  lemma {:induction false} EntriesRead(codec: Codec, d: Docs, raw: seq<Byte>, shards: seq<Shard>, indexAt: nat,
                                       blobAt: nat, i: nat)
    requires d.Valid() && i <= |d.codes| && IndexRead(d, raw, indexAt) && ShardsRead(codec, d, raw, shards, blobAt)
    ensures ReadEntries(codec, raw, shards, indexAt, blobAt, i) == Some(FirstDocs(d, i))
  {
    if i > 0 {
      EntriesRead(codec, d, raw, shards, indexAt, blobAt, i - 1);
      InGroup(d, i - 1);
      assert UnpackEntry(raw, indexAt + (i - 1) * 8) == Some(EntryOf(d, i - 1));
      assert ReadShard(codec, raw, shards, blobAt, (i - 1) / SHARD) == Some(Group(d, (i - 1) / SHARD));
    }
  }

  /** An entry names its document's shard and line. */
  lemma InGroup(d: Docs, i: nat)
    requires d.Valid() && i < |d.codes|
    ensures i / SHARD < ShardCount(|d.codes|)
    ensures i % SHARD < |Group(d, i / SHARD)| && Group(d, i / SHARD)[i % SHARD] == d.texts[d.codes[i]]
  {
    assert i / SHARD * SHARD + i % SHARD == i;
  }

  lemma {:induction false} FirstDocsAre(d: Docs, n: nat)
    requires d.Valid() && n <= |d.codes|
    ensures forall code :: code in FirstDocs(d, n) <==> code in d.codes[..n]
    ensures forall code :: code in FirstDocs(d, n) ==> FirstDocs(d, n)[code] == d.texts[code]
  {
    if n > 0 {
      FirstDocsAre(d, n - 1);
      assert d.codes[..n] == d.codes[..n - 1] + [d.codes[n - 1]];
    }
  }

  lemma AllDocs(d: Docs)
    requires d.Valid() && d.Complete()
    ensures FirstDocs(d, |d.codes|) == d.texts
  {
    var docs := FirstDocs(d, |d.codes|);
    FirstDocsAre(d, |d.codes|);
    assert d.codes[..|d.codes|] == d.codes;
    assert forall code :: code in docs <==> code in d.texts;
    assert forall code :: code in docs ==> docs[code] == d.texts[code];
  }

  ghost predicate IndexRead(d: Docs, raw: seq<Byte>, indexAt: nat) {
    forall i :: 0 <= i < |d.codes| ==> UnpackEntry(raw, indexAt + i * 8) == Some(EntryOf(d, i))
  }

  ghost predicate ShardsRead(codec: Codec, d: Docs, raw: seq<Byte>, shards: seq<Shard>, blobAt: nat)
    requires d.Valid()
  {
    forall s :: 0 <= s < ShardCount(|d.codes|) ==> ReadShard(codec, raw, shards, blobAt, s) == Some(Group(d, s))
  }

  lemma LaidIndexReads(d: Docs, raw: seq<Byte>, shards: seq<Shard>, entries: seq<Entry>, blob: seq<Byte>)
    requires Laid(raw, shards, entries, blob) && entries == Entries(d, |d.codes|)
    ensures IndexRead(d, raw, IndexAt(|shards|))
  {
    forall i | 0 <= i < |d.codes| ensures UnpackEntry(raw, IndexAt(|shards|) + i * 8) == Some(EntryOf(d, i)) {
      EntryRead(raw, shards, entries, blob, i);
    }
  }

  lemma LaidTableReads(raw: seq<Byte>, shards: seq<Shard>, entries: seq<Entry>, blob: seq<Byte>)
    requires Laid(raw, shards, entries, blob)
    ensures ReadTable(raw, |shards|) == Some(shards)
  {
    forall i | 0 <= i < |shards| ensures UnpackShard(raw, 12 + i * 12) == Some(shards[i]) {
      TableEntryRead(raw, shards, entries, blob, i);
    }
    TableRead(raw, shards, |shards|);
    assert shards[..|shards|] == shards;
  }

  lemma ShardIs(codec: Codec, d: Docs, n: nat, s: nat)
    requires d.Valid() && s < n <= ShardCount(|d.codes|)
    ensures Shards(codec, d, n)[s] == ShardOf(codec, d, s)
  {
  }

  lemma LaidShardReads(codec: Codec, d: Docs, raw: seq<Byte>, shards: seq<Shard>, entries: seq<Entry>, s: nat)
    requires Lossless(codec) && d.Valid() && d.OneLiners() && s < ShardCount(|d.codes|)
    requires shards == Shards(codec, d, ShardCount(|d.codes|)) && Laid(raw, shards, entries, Blob(codec, d, |shards|))
    ensures ReadShard(codec, raw, shards, BlobAt(|shards|, |entries|), s) == Some(Group(d, s))
  {
    BlockIsAt(codec, d, raw, shards, entries, s);
    ShardIs(codec, d, ShardCount(|d.codes|), s);
    ShardRead(codec, d, raw, shards, s, BlobAt(|shards|, |entries|));
  }

  lemma LaidShardsRead(codec: Codec, d: Docs, raw: seq<Byte>, shards: seq<Shard>, entries: seq<Entry>)
    requires Lossless(codec) && d.Valid() && d.OneLiners()
    requires shards == Shards(codec, d, ShardCount(|d.codes|)) && Laid(raw, shards, entries, Blob(codec, d, |shards|))
    ensures ShardsRead(codec, d, raw, shards, BlobAt(|shards|, |entries|))
  {
    forall s | 0 <= s < ShardCount(|d.codes|)
      ensures ReadShard(codec, raw, shards, BlobAt(|shards|, |entries|), s) == Some(Group(d, s))
    {
      LaidShardReads(codec, d, raw, shards, entries, s);
    }
  }

  lemma DocsRead(codec: Codec, d: Docs, raw: seq<Byte>, shards: seq<Shard>)
    requires d.Valid() && d.Complete() && ReadTable(raw, |shards|) == Some(shards)
    requires IndexRead(d, raw, IndexAt(|shards|)) && ShardsRead(codec, d, raw, shards, BlobAt(|shards|, |d.codes|))
    ensures ReadDocs(codec, raw, |shards|, |d.codes|) == Some(d.texts)
  {
    EntriesRead(codec, d, raw, shards, IndexAt(|shards|), BlobAt(|shards|, |d.codes|), |d.codes|);
    AllDocs(d);
  }

  lemma LaidReads(codec: Codec, d: Docs, raw: seq<Byte>, shards: seq<Shard>, entries: seq<Entry>)
    requires Lossless(codec) && d.Valid() && d.Complete() && d.OneLiners()
    requires shards == Shards(codec, d, ShardCount(|d.codes|)) && entries == Entries(d, |d.codes|)
    requires Laid(raw, shards, entries, Blob(codec, d, |shards|))
    ensures ReadDocs(codec, raw, |shards|, |entries|) == Some(d.texts)
  {
    LaidIndexReads(d, raw, shards, entries, Blob(codec, d, |shards|));
    LaidTableReads(raw, shards, entries, Blob(codec, d, |shards|));
    LaidShardsRead(codec, d, raw, shards, entries);
    DocsRead(codec, d, raw, shards);
  }

  /** What is written is read back: every code with its document, and nothing else. */
  lemma RoundTrip(codec: Codec, d: Docs)
    requires Lossless(codec) && d.Valid() && d.Complete() && d.OneLiners()
    requires Packed(codec, d).Some?
    ensures Read(codec, Packed(codec, d).value) == Some(d.texts)
  {
    var n := ShardCount(|d.codes|);
    var shards, entries, blob := Shards(codec, d, n), Entries(d, |d.codes|), Blob(codec, d, n);
    assert Packed(codec, d) == Assembled(shards, entries, blob);
    Lays(shards, entries, blob);
    LaidReads(codec, d, Packed(codec, d).value, shards, entries);
  }

  /** The numbers of a shard fit their fields. */
  ghost predicate ShardFits(codec: Codec, d: Docs, s: nat)
    requires d.Valid() && s < ShardCount(|d.codes|)
  {
    && |Blob(codec, d, s)| < 0x1_0000_0000 && |Block(codec, d, s)| < 0x1_0000_0000
    && |Join(Group(d, s))| < 0x1_0000_0000
  }

  lemma TableFits(codec: Codec, d: Docs)
    requires d.Valid()
    ensures var n := ShardCount(|d.codes|);
            Table(Shards(codec, d, n)).Some? <==> forall s :: 0 <= s < n ==> ShardFits(codec, d, s)
  {
    var n := ShardCount(|d.codes|);
    var shards := Shards(codec, d, n);
    forall s | 0 <= s < n ensures PackShard(shards[s]).Some? <==> ShardFits(codec, d, s) {
    }
  }

  lemma IndexFits(d: Docs)
    requires d.Valid()
    ensures Index(Entries(d, |d.codes|)).Some?
            <==> ShardCount(|d.codes|) <= LIMIT16 && forall i :: 0 <= i < |d.codes| ==> 0 <= d.codes[i] < LIMIT32
  {
    var entries := Entries(d, |d.codes|);
    forall i | 0 <= i < |entries|
      ensures PackEntry(entries[i]).Some? <==> 0 <= d.codes[i] < LIMIT32 && i / SHARD < LIMIT16
    {
    }
    if ShardCount(|d.codes|) > LIMIT16 {
      assert !PackEntry(entries[|entries| - 1]).Some?;
    }
  }

  /** It is written exactly if every number fits its field; 16 bits bound the shards. */
  lemma WrittenExactlyIfItFits(codec: Codec, d: Docs)
    requires d.Valid()
    ensures Packed(codec, d).Some?
            <==> && (|d.codes| + 63) / 64 <= 0x1_0000
                 && (forall i :: 0 <= i < |d.codes| ==> 0 <= d.codes[i] < 0x1_0000_0000)
                 && (forall s :: 0 <= s < ShardCount(|d.codes|) ==> ShardFits(codec, d, s))
  {
    TableFits(codec, d);
    IndexFits(d);
  }
}
