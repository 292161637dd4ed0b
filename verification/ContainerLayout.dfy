/**
 * Where the bytes of a PROJJSON container are (scripts/gen_crs_tables.py:635-672), for any
 * reader of the format.
 */
module ContainerLayout {
  import opened Basics
  import opened Container

  predicate Means(a: int, b: int, c: int, d: int, n: int) {
    n == a + 0x100 * b + 0x1_0000 * c + 0x100_0000 * d
  }

  /** A 32-bit number, its lowest byte first. */
  ghost predicate WordIs(raw: seq<Byte>, at: nat, n: int) {
    at + 4 <= |raw| && Means(raw[at], raw[at + 1], raw[at + 2], raw[at + 3], n)
  }

  /** A 16-bit number, its lowest byte first. */
  ghost predicate HalfIs(raw: seq<Byte>, at: nat, n: int) {
    at + 2 <= |raw| && Means(raw[at], raw[at + 1], 0, 0, n)
  }

  /** 12 bytes of the table of shards. */
  ghost predicate ShardBytes(raw: seq<Byte>, at: nat, offset: int, compLen: int, rawLen: int) {
    WordIs(raw, at, offset) && WordIs(raw, at + 4, compLen) && WordIs(raw, at + 8, rawLen)
  }

  /** 8 bytes of the index. */
  ghost predicate EntryBytes(raw: seq<Byte>, at: nat, code: int, shard: int, line: int) {
    WordIs(raw, at, code) && HalfIs(raw, at + 4, shard) && HalfIs(raw, at + 6, line)
  }

  lemma {:induction false} ShardWords(raw: seq<Byte>, at: nat, shard: Shard)
    requires UnpackShard(raw, at) == Some(shard)
    ensures ShardBytes(raw, at, shard.offset, shard.compLen, shard.rawLen)
  {
  }

  lemma {:induction false} EntryWords(raw: seq<Byte>, at: nat, entry: Entry)
    requires UnpackEntry(raw, at) == Some(entry)
    ensures EntryBytes(raw, at, entry.code, entry.shard, entry.line)
  {
  }

  /** What was written is laid out. */
  ghost predicate Written(codec: Codec, d: Docs, raw: seq<Byte>, shards: seq<Shard>, entries: seq<Entry>)
    requires d.Valid()
  {
    && |shards| == ShardCount(|d.codes|) && shards == Shards(codec, d, |shards|)
    && entries == Entries(d, |d.codes|) && Laid(raw, shards, entries, Blob(codec, d, |shards|))
  }

  lemma {:induction false} IsWritten(codec: Codec, d: Docs, raw: seq<Byte>)
    returns (shards: seq<Shard>, entries: seq<Entry>)
    requires d.Valid() && Packed(codec, d) == Some(raw)
    ensures Written(codec, d, raw, shards, entries) && |shards| == (|d.codes| + 63) / 64
  {
    shards, entries := Shards(codec, d, ShardCount(|d.codes|)), Entries(d, |d.codes|);
    Lays(shards, entries, Blob(codec, d, ShardCount(|d.codes|)));
  }

  /** `XPJ1`, the number of shards of 64 codes each, and that of the codes. */
  lemma {:induction false} Header(codec: Codec, d: Docs, raw: seq<Byte>)
    requires d.Valid() && Packed(codec, d) == Some(raw)
    ensures |raw| >= 12 && raw[..4] == [0x58, 0x50, 0x4A, 0x31]
    ensures WordIs(raw, 4, (|d.codes| + 63) / 64) && WordIs(raw, 8, |d.codes|)
  {
    var shards, entries := IsWritten(codec, d, raw);
  }

  /** Behind the table of shards, 8 bytes for each code: itself, its shard and its line there. */
  lemma {:induction false} IndexEntry(codec: Codec, d: Docs, raw: seq<Byte>, shardCount: nat, i: nat, at: nat)
    requires d.Valid() && Packed(codec, d) == Some(raw) && shardCount == (|d.codes| + 63) / 64
    requires i < |d.codes| && at == 12 + shardCount * 12 + i * 8
    ensures EntryBytes(raw, at, d.codes[i], i / 64, i % 64)
  {
    var shards, entries := IsWritten(codec, d, raw);
    assert |shards| == shardCount;
    EntryWritten(d, raw, shards, entries, Blob(codec, d, |shards|), i, at);
  }

  lemma {:induction false} EntryWritten(d: Docs, raw: seq<Byte>, shards: seq<Shard>, entries: seq<Entry>,
                                        blob: seq<Byte>, i: nat, at: nat)
    requires Laid(raw, shards, entries, blob) && entries == Entries(d, |d.codes|)
    requires i < |d.codes| && at == 12 + |shards| * 12 + i * 8
    ensures EntryBytes(raw, at, d.codes[i], i / 64, i % 64)
  {
    EntryIsThere(raw, shards, entries, blob, i, at);
    EntryIs(d, entries, i);
  }

  lemma {:induction false} EntryIs(d: Docs, entries: seq<Entry>, i: nat)
    requires entries == Entries(d, |d.codes|) && i < |d.codes|
    ensures entries[i] == Entry(d.codes[i], i / 64, i % 64)
  {
  }

  lemma {:induction false} EntryIsThere(raw: seq<Byte>, shards: seq<Shard>, entries: seq<Entry>, blob: seq<Byte>,
                                        i: nat, at: nat)
    requires Laid(raw, shards, entries, blob) && i < |entries| && at == 12 + |shards| * 12 + i * 8
    ensures EntryBytes(raw, at, entries[i].code, entries[i].shard, entries[i].line)
  {
    EntryRead(raw, shards, entries, blob, i);
    EntryWords(raw, at, entries[i]);
  }

  /** The documents of a shard, one a line. */
  ghost function ShardText(d: Docs, s: nat): seq<Byte>
    requires d.Valid() && s * 64 < |d.codes|
  {
    var end := if s * 64 + 64 < |d.codes| then s * 64 + 64 else |d.codes|;
    Join(seq(end - s * 64, i requires 0 <= i < end - s * 64 => d.texts[d.codes[s * 64 + i]]))
  }

  lemma {:induction false} IsShardText(d: Docs, s: nat)
    requires d.Valid() && s < ShardCount(|d.codes|)
    ensures s * 64 < |d.codes| && ShardText(d, s) == Join(Group(d, s))
  {
    var end := GroupEnd(|d.codes|, s);
    assert Group(d, s) == seq(end - s * 64, i requires 0 <= i < end - s * 64 => d.texts[d.codes[s * 64 + i]]);
  }

  ghost predicate BytesAre(raw: seq<Byte>, at: nat, bytes: seq<Byte>) {
    Slice(raw, at, at + |bytes|) == bytes
  }

  /** The shard's 12 bytes in the table: where its block is in the blob, how long that is, and its text. */
  lemma {:induction false} TableEntry(codec: Codec, d: Docs, raw: seq<Byte>, shardCount: nat, s: nat, at: nat,
                                      blob: nat)
    returns (shard: Shard)
    requires d.Valid() && Packed(codec, d) == Some(raw) && s < shardCount == (|d.codes| + 63) / 64
    requires at == 12 + s * 12 && blob == 12 + shardCount * 12 + |d.codes| * 8
    ensures s * 64 < |d.codes|
    ensures ShardBytes(raw, at, shard.offset, shard.compLen, shard.rawLen)
    ensures shard.compLen == |codec.compress(ShardText(d, s))| && shard.rawLen == |ShardText(d, s)|
    ensures BytesAre(raw, blob + shard.offset, codec.compress(ShardText(d, s)))
  {
    IsShardText(d, s);
    var shards, entries := IsWritten(codec, d, raw);
    assert |shards| == shardCount;
    shard := ShardOf(codec, d, s);
    ShardWritten(codec, d, s, raw, shards, entries, at, shard);
    assert codec.compress(ShardText(d, s)) == Block(codec, d, s);
    BlockIsThere(codec, d, s, raw, shards, entries, blob, shard, codec.compress(ShardText(d, s)));
  }

  lemma {:induction false} ShardIsThere(raw: seq<Byte>, shards: seq<Shard>, entries: seq<Entry>, blob: seq<Byte>,
                                        s: nat, at: nat)
    requires Laid(raw, shards, entries, blob) && s < |shards| && at == 12 + s * 12
    ensures ShardBytes(raw, at, shards[s].offset, shards[s].compLen, shards[s].rawLen)
  {
    TableEntryRead(raw, shards, entries, blob, s);
    ShardWords(raw, at, shards[s]);
  }

  lemma {:induction false} ShardWritten(codec: Codec, d: Docs, s: nat, raw: seq<Byte>, shards: seq<Shard>,
                                        entries: seq<Entry>, at: nat, shard: Shard)
    requires d.Valid() && Written(codec, d, raw, shards, entries) && s < |shards| && at == 12 + s * 12
    requires shard == ShardOf(codec, d, s)
    ensures ShardBytes(raw, at, shard.offset, shard.compLen, shard.rawLen)
  {
    ShardIsThere(raw, shards, entries, Blob(codec, d, |shards|), s, at);
    ShardIs(codec, d, |shards|, s);
    assert shards[s] == shard;
  }

  lemma {:induction false} BlockIsThere(codec: Codec, d: Docs, s: nat, raw: seq<Byte>, shards: seq<Shard>,
                                        entries: seq<Entry>, blob: nat, shard: Shard, block: seq<Byte>)
    requires d.Valid() && Written(codec, d, raw, shards, entries) && s < |shards| && shard == ShardOf(codec, d, s)
    requires blob == 12 + |shards| * 12 + |d.codes| * 8 && block == Block(codec, d, s)
    ensures BytesAre(raw, blob + shard.offset, block)
  {
    BlockIsAt(codec, d, raw, shards, entries, s);
    BlockBytes(raw, blob, shard, block);
  }

  lemma {:induction false} BlockBytes(raw: seq<Byte>, blob: nat, shard: Shard, block: seq<Byte>)
    requires BlockOf(raw, blob, shard) == block && |block| == shard.compLen
    ensures BytesAre(raw, blob + shard.offset, block)
  {
  }

  /** Lines are joined by a newline, and by nothing else. */
  lemma {:induction false} JoinAdds(lines: seq<seq<Byte>>, line: seq<Byte>)
    ensures Join([line]) == line
    ensures lines != [] ==> Join(lines + [line]) == Join(lines) + ([10] + line)
  {
    assert (lines + [line])[..|lines|] == lines;
  }
}
