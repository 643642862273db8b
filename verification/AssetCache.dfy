/**
 Asset transfer: how the server cuts files into frames
 (src/net/handshake.cpp, pump_assets) and how the client's content-addressed
 cache asks for, checks and stores them (src/assetsync/cache.cpp). `hash` is
 any function from bytes to hashes. The disk is a map from hashes to bytes.
 */
module AssetCache {
  import opened Common

  type Byte = b: int | 0 <= b < 256

  type Bytes = seq<Byte>

  datatype AssetHash = AssetHash(lo: nat, hi: nat)

  const ZERO_HASH := AssetHash(0, 0)

  const CHUNK_BYTES: nat := 48 * 1024
  const MAX_FILE_BYTES: nat := 32 * 1024 * 1024

  datatype Entry = Entry(path: string, hash: AssetHash, size: nat)

  datatype AssetData = AssetData(hash: AssetHash, num: nat, total: nat, bytes: Bytes)

  datatype IndexEntry = IndexEntry(size: nat, lastUsed: int)

  datatype PendingFile = PendingFile(
    paths: seq<string>, expectedSize: nat, buffer: Bytes, received: nat, total: nat, done: bool)

  type Index = map<AssetHash, IndexEntry>

  type Disk = map<AssetHash, Bytes>

  /** The part of the cache one transfer cycle works on. */
  datatype Transfer = Transfer(pending: map<AssetHash, PendingFile>, virtualFs: map<string, Bytes>)

  // ------------------------------------------------------- cutting into frames

  function ChunkCount(size: nat): (n: nat)
    ensures n >= 1 && (n - 1) * CHUNK_BYTES <= size <= n * CHUNK_BYTES
    ensures size > 0 ==> (n - 1) * CHUNK_BYTES < size
  {
    if size == 0 then 1 else (size + CHUNK_BYTES - 1) / CHUNK_BYTES
  }

  /** Frame number k of a file. */
  function FrameOf(h: AssetHash, file: Bytes, k: nat): AssetData
    requires k < ChunkCount(|file|)
  {
    var offset := k * CHUNK_BYTES;
    assert k * CHUNK_BYTES <= (ChunkCount(|file|) - 1) * CHUNK_BYTES;
    AssetData(h, k, ChunkCount(|file|), file[offset..Min(offset + CHUNK_BYTES, |file|)])
  }

  /** Frames k, k+1, ... of a file. */
  function FramesFrom(h: AssetHash, file: Bytes, k: nat): (r: seq<AssetData>)
    requires k <= ChunkCount(|file|)
    ensures |r| == ChunkCount(|file|) - k
    decreases ChunkCount(|file|) - k
  {
    if k == ChunkCount(|file|) then [] else [FrameOf(h, file, k)] + FramesFrom(h, file, k + 1)
  }

  /** All the server sends for a request, file after file. */
  function Stream(files: Disk, missing: seq<AssetHash>): seq<AssetData> {
    if missing == [] then []
    else
      var rest := Stream(files, missing[1..]);
      if missing[0] in files then FramesFrom(missing[0], files[missing[0]], 0) + rest else rest
  }

  // -------------------------------------------------------- compute_missing

  /** The variables of the manifest scan. */
  datatype Scan = Scan(index: Index, transfer: Transfer, missing: seq<AssetHash>)

  function Requested(s: Scan, e: Entry): Scan {
    if e.hash in s.transfer.pending then
      var pf := s.transfer.pending[e.hash];
      s.(transfer := s.transfer.(pending := s.transfer.pending[e.hash := pf.(paths := pf.paths + [e.path])]))
    else
      s.(transfer := s.transfer.(pending := s.transfer.pending[e.hash := PendingFile([e.path], e.size, [], 0, 0, false)]),
         missing := s.missing + [e.hash])
  }

  function ScannedEntry(s: Scan, e: Entry, disk: Disk, now: int): Scan {
    if e.hash in s.transfer.pending || e.hash !in s.index then Requested(s, e)
    else if e.hash in disk then
      s.(index := s.index[e.hash := s.index[e.hash].(lastUsed := now)],
         transfer := s.transfer.(virtualFs := s.transfer.virtualFs[e.path := disk[e.hash]]))
    else Requested(s.(index := s.index - {e.hash}), e)
  }

  function Scanned(entries: seq<Entry>, index: Index, disk: Disk, now: int): Scan {
    if entries == [] then Scan(index, Transfer(map[], map[]), [])
    else ScannedEntry(Scanned(entries[..|entries| - 1], index, disk, now), entries[|entries| - 1], disk, now)
  }

  /** The entry list a manifest message stands for: its own, or, when it has
      none, the one remembered under its hash. */
  function EntryList(entries: seq<Entry>, manifestHash: AssetHash, manifests: map<AssetHash, seq<Entry>>): seq<Entry> {
    if manifestHash != ZERO_HASH && entries == [] && manifestHash in manifests then manifests[manifestHash] else entries
  }

  function Remembered(entries: seq<Entry>, manifestHash: AssetHash, manifests: map<AssetHash, seq<Entry>>): map<AssetHash, seq<Entry>> {
    if manifestHash != ZERO_HASH && entries != [] then manifests[manifestHash := entries] else manifests
  }

  // ------------------------------------------------------------ ingest_chunk

  function StoredAt(fs: map<string, Bytes>, paths: seq<string>, bytes: Bytes): map<string, Bytes> {
    if paths == [] then fs else StoredAt(fs, paths[..|paths| - 1], bytes)[paths[|paths| - 1] := bytes]
  }

  function Ingested(t: Transfer, chunk: AssetData, hash: Bytes -> AssetHash): (r: (Transfer, bool)) {
    var h := chunk.hash;
    if h !in t.pending || t.pending[h].done then (t, false)
    else
      var pf := t.pending[h];
      if chunk.num != pf.received || pf.expectedSize > MAX_FILE_BYTES then (t, false)
      else
        var longer := pf.(buffer := pf.buffer + chunk.bytes);
        var next := longer.(total := chunk.total, received := pf.received + 1);
        if |longer.buffer| > MAX_FILE_BYTES then (t.(pending := t.pending[h := longer]), false)
        else if next.received < next.total then (t.(pending := t.pending[h := next]), true)
        else if hash(next.buffer) != h then (t.(pending := t.pending - {h}), false)
        else (Transfer(t.pending[h := next.(done := true)], StoredAt(t.virtualFs, pf.paths, next.buffer)), true)
  }

  datatype CacheState = CacheState(transfer: Transfer, index: Index, disk: Disk)

  /** What a frame does to the whole client if nothing has to be evicted. */
  function Kept(c: CacheState, chunk: AssetData, now: int, hash: Bytes -> AssetHash): CacheState {
    var (t, ok) := Ingested(c.transfer, chunk, hash);
    if ok && t.pending[chunk.hash].done then
      var file := t.pending[chunk.hash].buffer;
      CacheState(t, c.index[chunk.hash := IndexEntry(|file|, now)], c.disk[chunk.hash := file])
    else c.(transfer := t)
  }

  predicate AllReceived(t: Transfer) {
    forall h :: h in t.pending ==> t.pending[h].done
  }

  // ---------------------------------------------------------------- eviction

  ghost function TotalBytes(index: Index): nat {
    if index == map[] then 0
    else
      var h :| h in index;
      index[h].size + TotalBytes(index - {h})
  }

  lemma {:induction false} TotalBytesWithout(index: Index, h: AssetHash)
    requires h in index
    ensures TotalBytes(index) == index[h].size + TotalBytes(index - {h})
    decreases |index|
  {
    var g :| g in index && TotalBytes(index) == index[g].size + TotalBytes(index - {g});
    if g != h {
      TotalBytesWithout(index - {g}, h);
      TotalBytesWithout(index - {h}, g);
      assert index - {g} - {h} == index - {h} - {g};
    }
  }

  /** Everything in `gone` was last used no later than everything kept. */
  ghost predicate UsedBefore(index: Index, gone: set<AssetHash>)
    requires gone <= index.Keys
  {
    forall g, h :: g in gone && h in index && h !in gone ==> index[g].lastUsed <= index[h].lastUsed
  }

  lemma WithoutMore<V>(m: map<AssetHash, V>, gone: set<AssetHash>, h: AssetHash)
    ensures m - gone - {h} == m - (gone + {h})
  {
  }

  lemma UsedBeforeMore(index: Index, gone: set<AssetHash>, oldest: AssetHash)
    requires gone <= index.Keys && UsedBefore(index, gone) && oldest in index && oldest !in gone
    requires forall h :: h in index - (gone + {oldest}) ==> index[oldest].lastUsed <= index[h].lastUsed
    ensures UsedBefore(index, gone + {oldest})
  {
    forall g, h | g in gone + {oldest} && h in index && h !in gone + {oldest}
      ensures index[g].lastUsed <= index[h].lastUsed
    {
      assert h in index - (gone + {oldest});
    }
  }

  /** The files evicted to make room: the least recently used, enough of them,
      and, by the file evicted last, not one more than needed. */
  ghost predicate MakesRoom(index: Index, gone: set<AssetHash>, incoming: nat, cap: nat) {
    && gone <= index.Keys && UsedBefore(index, gone)
    && (if incoming > cap then gone == {} else TotalBytes(index - gone) + incoming <= cap)
    && (gone != {} ==> exists last :: last in gone && TotalBytes(index - gone) + index[last].size + incoming > cap)
  }

  class ClientAssetCache {
    const hash: Bytes -> AssetHash
    const cap: nat
    var index: Index
    var disk: Disk
    var lastManifest: map<string, AssetHash>
    var manifests: map<AssetHash, seq<Entry>>
    var pending: map<AssetHash, PendingFile>
    var virtualFs: map<string, Bytes>

    constructor (hash: Bytes -> AssetHash, cap: nat, index: Index, disk: Disk)
      ensures this.hash == hash && this.cap == cap && this.index == index && this.disk == disk
      ensures lastManifest == map[] && manifests == map[] && Value() == Transfer(map[], map[])
    {
      this.hash, this.cap, this.index, this.disk := hash, cap, index, disk;
      lastManifest, manifests, pending, virtualFs := map[], map[], map[], map[];
    }

    function Value(): Transfer
      reads this
    {
      Transfer(pending, virtualFs)
    }

    method TotalCachedBytes() returns (total: nat)
      ensures total == TotalBytes(index)
    {
      total := 0;
      var todo := index;
      while todo != map[]
        invariant todo.Keys <= index.Keys && forall h :: h in todo ==> todo[h] == index[h]
        invariant total + TotalBytes(todo) == TotalBytes(index)
        decreases |todo|
      {
        var h :| h in todo;
        TotalBytesWithout(todo, h);
        total := total + todo[h].size;
        todo := todo - {h};
      }
    }

    method Oldest() returns (oldest: AssetHash)
      requires index != map[]
      ensures oldest in index && forall h :: h in index ==> index[oldest].lastUsed <= index[h].lastUsed
    {
      oldest :| oldest in index;
      var todo := index.Keys;
      while todo != {}
        invariant todo <= index.Keys && oldest in index
        invariant forall h :: h in index && h !in todo ==> index[oldest].lastUsed <= index[h].lastUsed
        decreases todo
      {
        var h :| h in todo;
        todo := todo - {h};
        if index[h].lastUsed < index[oldest].lastUsed {
          oldest := h;
        }
      }
    }

    /** Evicts least recently used files until `incoming` bytes fit, and not one
        file more: before the `last` eviction they did not. */
    method EvictUntilFits(incoming: nat) returns (ghost gone: set<AssetHash>, ghost last: AssetHash)
      modifies `index, `disk
      ensures gone <= old(index).Keys && index == old(index) - gone && disk == old(disk) - gone
      ensures incoming > cap ==> gone == {}
      ensures incoming <= cap ==> TotalBytes(index) + incoming <= cap
      ensures UsedBefore(old(index), gone)
      ensures gone != {} ==> last in gone && TotalBytes(index) + old(index)[last].size + incoming > cap
    {
      gone, last := {}, ZERO_HASH;
      ghost var was, files := index, disk;
      assert UsedBefore(was, gone) && TotalBytes(map[]) == 0;
      hide UsedBefore, TotalBytes;
      if incoming > cap {
        return;
      }
      var total := TotalCachedBytes();
      while total + incoming > cap && index != map[]
        invariant total == TotalBytes(index)
        invariant gone <= was.Keys && index == was - gone && disk == files - gone
        invariant UsedBefore(was, gone)
        invariant gone != {} ==> last in gone && total + was[last].size + incoming > cap
        decreases |index|
      {
        last := EvictOldest();
        WithoutMore(was, gone, last);
        WithoutMore(files, gone, last);
        UsedBeforeMore(was, gone, last);
        gone := gone + {last};
        total := TotalCachedBytes();
      }
    }

    method EvictOldest() returns (oldest: AssetHash)
      requires index != map[]
      modifies `index, `disk
      ensures oldest in old(index) && index == old(index) - {oldest} && disk == old(disk) - {oldest}
      ensures forall h :: h in index ==> old(index)[oldest].lastUsed <= index[h].lastUsed
      ensures TotalBytes(old(index)) == old(index)[oldest].size + TotalBytes(index)
    {
      oldest := Oldest();
      TotalBytesWithout(index, oldest);
      disk := disk - {oldest};
      index := index - {oldest};
    }

    /** Stores a complete file in the room made for it; a file within the cap
        leaves the cache within it. */
    method CommitFile(h: AssetHash, bytes: Bytes, now: int) returns (ghost gone: set<AssetHash>)
      modifies `index, `disk
      ensures MakesRoom(old(index), gone, |bytes|, cap)
      ensures index == (old(index) - gone)[h := IndexEntry(|bytes|, now)]
      ensures disk == (old(disk) - gone)[h := bytes]
      ensures |bytes| <= cap ==> TotalBytes(index) <= cap
      ensures hash(bytes) == h && Sound(old(disk), hash) ==> Sound(disk, hash)
    {
      ghost var last;
      gone, last := EvictUntilFits(|bytes|);
      ghost var kept := index;
      disk := disk[h := bytes];
      index := index[h := IndexEntry(|bytes|, now)];
      TotalBytesWithout(index, h);
      assert index - {h} == kept - {h};
      if h in kept {
        TotalBytesWithout(kept, h);
      } else {
        assert kept - {h} == kept;
      }
    }

    method ComputeMissing(entries: seq<Entry>, manifestHash: AssetHash, now: int) returns (missing: seq<AssetHash>)
      modifies `index, `manifests, `pending, `virtualFs
      ensures manifests == Remembered(entries, manifestHash, old(manifests))
      ensures var s := Scanned(EntryList(entries, manifestHash, old(manifests)), old(index), disk, now);
              index == s.index && Value() == s.transfer && missing == s.missing
      ensures UsesCache(EntryList(entries, manifestHash, old(manifests)), old(index), disk, now, Scan(index, Value(), missing))
    {
      hide UsesCache, Scanned;
      pending := map[];
      virtualFs := map[];
      var list := entries;
      if manifestHash != ZERO_HASH {
        if entries != [] {
          manifests := manifests[manifestHash := entries];
        } else if manifestHash in manifests {
          list := manifests[manifestHash];  // the server sent no entries
        }
      }
      missing := ScanAll(list, now);
      ScanUsesCache(list, old(index), disk, now);
    }

    method ScanAll(list: seq<Entry>, now: int) returns (missing: seq<AssetHash>)
      requires pending == map[] && virtualFs == map[]
      modifies `index, `pending, `virtualFs
      ensures Scan(index, Value(), missing) == Scanned(list, old(index), disk, now)
    {
      missing := [];
      hide ScannedEntry;
      for i := 0 to |list|
        invariant Scan(index, Transfer(pending, virtualFs), missing) == Scanned(list[..i], old(index), disk, now)
        modifies `index, `pending, `virtualFs
      {
        assert list[..i + 1][..i] == list[..i];
        missing := ScanEntry(list[i], missing, now);
      }
      assert list[..|list|] == list;
    }

    /** One round of the manifest scan: use the cached file or ask for it. */
    method ScanEntry(e: Entry, missing: seq<AssetHash>, now: int) returns (more: seq<AssetHash>)
      modifies `index, `pending, `virtualFs
      ensures Scan(index, Value(), more) == ScannedEntry(old(Scan(index, Value(), missing)), e, disk, now)
    {
      if e.hash in pending || e.hash !in index {
        more := Request(e, missing);
        return;
      }
      ghost var was := index;
      index := index[e.hash := index[e.hash].(lastUsed := now)];
      if e.hash in disk {
        virtualFs := virtualFs[e.path := disk[e.hash]];
        more := missing;
      } else {
        index := index - {e.hash};  // the index knows it but the file is gone
        assert index == was - {e.hash};
        more := Request(e, missing);
      }
    }

    // Once per hash, however many paths share it.
    method Request(e: Entry, missing: seq<AssetHash>) returns (more: seq<AssetHash>)
      modifies `pending
      ensures Scan(index, Value(), more) == Requested(Scan(index, old(Value()), missing), e)
    {
      if e.hash in pending {
        pending := pending[e.hash := pending[e.hash].(paths := pending[e.hash].paths + [e.path])];
        more := missing;
      } else {
        pending := pending[e.hash := PendingFile([e.path], e.size, [], 0, 0, false)];
        more := missing + [e.hash];
      }
    }

    /** The last frame of a file stores exactly the bytes received for it, which
        have the hash asked for; no other frame touches index or disk. */
    method IngestChunk(chunk: AssetData, now: int) returns (ok: bool, ghost gone: set<AssetHash>)
      modifies `index, `disk, `pending, `virtualFs
      ensures (Value(), ok) == Ingested(old(Value()), chunk, hash)
      ensures if ok && pending[chunk.hash].done then
                var file := old(pending)[chunk.hash].buffer + chunk.bytes;
                && hash(file) == chunk.hash && MakesRoom(old(index), gone, |file|, cap)
                && index == (old(index) - gone)[chunk.hash := IndexEntry(|file|, now)]
                && disk == (old(disk) - gone)[chunk.hash := file]
                && (|file| <= cap ==> TotalBytes(index) <= cap)
              else index == old(index) && disk == old(disk)
      ensures Sound(old(disk), hash) ==> Sound(disk, hash)
    {
      hide MakesRoom, TotalBytes, Sound;
      var h := chunk.hash;
      if h !in pending || pending[h].done {
        return false, {};  // unrequested or already completed
      }
      var pf := pending[h];
      if chunk.num != pf.received {
        return false, {};  // out of order
      }
      if pf.expectedSize > MAX_FILE_BYTES {
        return false, {};
      }
      pf := pf.(buffer := pf.buffer + chunk.bytes);
      pending := pending[h := pf];
      if |pf.buffer| > MAX_FILE_BYTES {
        return false, {};
      }
      pf := pf.(total := chunk.total, received := pf.received + 1);
      pending := pending[h := pf];
      assert pending == old(pending)[h := pf];
      if pf.received < pf.total {
        return true, {};
      }
      if hash(pf.buffer) != h {
        pending := pending - {h};
        assert pending == old(pending) - {h};
        return false, {};
      }
      gone := CommitFile(h, pf.buffer, now);
      for i := 0 to |pf.paths|
        invariant virtualFs == StoredAt(old(virtualFs), pf.paths[..i], pf.buffer)
        modifies `virtualFs
      {
        assert pf.paths[..i + 1][..i] == pf.paths[..i];
        virtualFs := virtualFs[pf.paths[i] := pf.buffer];
      }
      assert pf.paths[..|pf.paths|] == pf.paths;
      pf := pf.(done := true);
      pending := pending[h := pf];
      assert pending == old(pending)[h := pf];
      return true, gone;
    }

    method EverythingReceived() returns (all: bool)
      ensures all == AllReceived(Value())
    {
      var todo := pending.Keys;
      while todo != {}
        invariant todo <= pending.Keys
        invariant forall h :: h in pending && h !in todo ==> pending[h].done
        decreases todo
      {
        var h :| h in todo;
        todo := todo - {h};
        if !pending[h].done {
          return false;
        }
      }
      return true;
    }

    method RememberManifestHash(server: string, h: AssetHash)
      modifies `lastManifest
      ensures lastManifest == old(lastManifest)[server := h]
    {
      lastManifest := lastManifest[server := h];
    }

    method LastKnownManifestHashFor(server: string) returns (h: AssetHash)
      ensures h != ZERO_HASH ==> h in manifests && server in lastManifest && lastManifest[server] == h
      ensures server in lastManifest && lastManifest[server] in manifests ==> h == lastManifest[server]
    {
      if server !in lastManifest || lastManifest[server] !in manifests {
        return ZERO_HASH;
      }
      return lastManifest[server];
    }
  }

  // -------------------------------------------------- the scan asks correctly

  ghost predicate DistinctPaths(entries: seq<Entry>) {
    forall i, j :: 0 <= i < j < |entries| ==> entries[i].path != entries[j].path
  }

  /** Every stored file has the hash it is stored under. */
  ghost predicate Sound(files: Disk, hash: Bytes -> AssetHash) {
    forall h :: h in files ==> hash(files[h]) == h
  }

  ghost predicate Names(entries: seq<Entry>, path: string, h: AssetHash) {
    exists e :: e in entries && e.path == path && e.hash == h
  }

  ghost predicate Fresh(pf: PendingFile) {
    pf.buffer == [] && pf.received == 0 && pf.total == 0 && !pf.done
  }

  ghost predicate Served(t: Transfer, e: Entry, hash: Bytes -> AssetHash) {
    e.path in t.virtualFs && hash(t.virtualFs[e.path]) == e.hash
  }

  ghost predicate Awaited(t: Transfer, e: Entry) {
    e.hash in t.pending && !t.pending[e.hash].done && e.path in t.pending[e.hash].paths
  }

  /** Every path on record is one the entries give to that hash. */
  ghost predicate PathsKnown(entries: seq<Entry>, t: Transfer) {
    && (forall h, p :: h in t.pending && p in t.pending[h].paths ==> Names(entries, p, h))
    && (forall p :: p in t.virtualFs ==> exists h :: Names(entries, p, h))
  }

  /** Each entry is either in the file system with its hash, or awaited. */
  ghost predicate Accounted(entries: seq<Entry>, t: Transfer, hash: Bytes -> AssetHash) {
    && PathsKnown(entries, t)
    && (forall e :: e in entries ==> Served(t, e, hash) || Awaited(t, e))
  }

  ghost predicate Distinct(hashes: seq<AssetHash>) {
    forall i, j :: 0 <= i < j < |hashes| ==> hashes[i] != hashes[j]
  }

  ghost predicate ScanSound(entries: seq<Entry>, s: Scan, hash: Bytes -> AssetHash) {
    && Accounted(entries, s.transfer, hash)
    && Distinct(s.missing)
    && (forall h :: h in s.transfer.pending <==> h in s.missing)
    && (forall h :: h in s.transfer.pending ==> Fresh(s.transfer.pending[h]) && s.transfer.pending[h].expectedSize <= MAX_FILE_BYTES)
    && (forall h :: h in s.missing ==> exists e :: e in entries && e.hash == h)
  }

  lemma NamesMore(entries: seq<Entry>, e: Entry)
    ensures forall p, h :: Names(entries, p, h) ==> Names(entries + [e], p, h)
    ensures Names(entries + [e], e.path, e.hash)
  {
    assert e in entries + [e];
    forall p, h | Names(entries, p, h)
      ensures Names(entries + [e], p, h)
    {
      var f :| f in entries && f.path == p && f.hash == h;
      assert f in entries + [e];
    }
  }

  lemma RequestedPaths(entries: seq<Entry>, s: Scan, e: Entry)
    requires PathsKnown(entries, s.transfer)
    ensures PathsKnown(entries + [e], Requested(s, e).transfer)
  {
    NamesMore(entries, e);
    var r := Requested(s, e).transfer;
    forall h, p | h in r.pending && p in r.pending[h].paths
      ensures Names(entries + [e], p, h)
    {
      if h == e.hash && p == e.path {
      } else {
        assert h in s.transfer.pending && p in s.transfer.pending[h].paths;
      }
    }
  }

  lemma RequestedAwaits(entries: seq<Entry>, s: Scan, e: Entry, hash: Bytes -> AssetHash)
    requires forall f :: f in entries ==> Served(s.transfer, f, hash) || Awaited(s.transfer, f)
    requires forall h :: h in s.transfer.pending ==> !s.transfer.pending[h].done
    ensures forall f :: f in entries + [e] ==> Served(Requested(s, e).transfer, f, hash) || Awaited(Requested(s, e).transfer, f)
  {
    var r := Requested(s, e).transfer;
    forall f | f in entries + [e]
      ensures Served(r, f, hash) || Awaited(r, f)
    {
      if f in entries && !Served(s.transfer, f, hash) {
        assert Awaited(s.transfer, f);
      }
    }
  }

  lemma RequestedHashes(entries: seq<Entry>, s: Scan, e: Entry)
    requires forall h :: h in s.missing ==> exists f :: f in entries && f.hash == h
    ensures forall h :: h in Requested(s, e).missing ==> exists f :: f in entries + [e] && f.hash == h
  {
    forall h | h in Requested(s, e).missing
      ensures exists f :: f in entries + [e] && f.hash == h
    {
      if h in s.missing {
        var f :| f in entries && f.hash == h;
        assert f in entries + [e];
      } else {
        assert e in entries + [e];
      }
    }
  }

  lemma RequestedSound(entries: seq<Entry>, s: Scan, e: Entry, hash: Bytes -> AssetHash)
    requires ScanSound(entries, s, hash) && e.size <= MAX_FILE_BYTES
    ensures ScanSound(entries + [e], Requested(s, e), hash)
  {
    hide PathsKnown, Served, Awaited;
    RequestedPaths(entries, s, e);
    RequestedAwaits(entries, s, e, hash);
    RequestedHashes(entries, s, e);
  }

  lemma FoundAccounted(entries: seq<Entry>, t: Transfer, e: Entry, file: Bytes, hash: Bytes -> AssetHash)
    requires Accounted(entries, t, hash) && hash(file) == e.hash && forall f :: f in entries ==> f.path != e.path
    ensures Accounted(entries + [e], t.(virtualFs := t.virtualFs[e.path := file]), hash)
  {
    var r := t.(virtualFs := t.virtualFs[e.path := file]);
    NamesMore(entries, e);
    forall f | f in entries + [e]
      ensures Served(r, f, hash) || Awaited(r, f)
    {
      if f in entries {
        assert Served(t, f, hash) || Awaited(t, f);
      }
    }
  }

  lemma FoundSound(entries: seq<Entry>, s: Scan, e: Entry, disk: Disk, index: Index, hash: Bytes -> AssetHash)
    requires ScanSound(entries, s, hash) && Sound(disk, hash) && e.hash in disk
    requires forall f :: f in entries ==> f.path != e.path
    ensures ScanSound(entries + [e], Scan(index, s.transfer.(virtualFs := s.transfer.virtualFs[e.path := disk[e.hash]]), s.missing), hash)
  {
    var t := s.transfer.(virtualFs := s.transfer.virtualFs[e.path := disk[e.hash]]);
    FoundAccounted(entries, s.transfer, e, disk[e.hash], hash);
    hide Accounted;
    forall h | h in s.missing
      ensures exists f :: f in entries + [e] && f.hash == h
    {
      var f :| f in entries && f.hash == h;
      assert f in entries + [e];
    }
  }

  ghost predicate Sized(entries: seq<Entry>) {
    forall e :: e in entries ==> e.size <= MAX_FILE_BYTES
  }

  lemma {:induction false} ScannedSound(entries: seq<Entry>, index: Index, disk: Disk, now: int, hash: Bytes -> AssetHash)
    requires DistinctPaths(entries) && Sized(entries) && Sound(disk, hash)
    ensures ScanSound(entries, Scanned(entries, index, disk, now), hash)
    decreases |entries|
  {
    if entries != [] {
      var front, e := entries[..|entries| - 1], entries[|entries| - 1];
      assert entries == front + [e];
      assert forall f :: f in front ==> f in entries;
      ScannedSound(front, index, disk, now, hash);
      var s := Scanned(front, index, disk, now);
      assert e in entries;
      hide ScanSound;
      RequestedSound(front, s, e, hash);
      if e.hash !in s.transfer.pending && e.hash in s.index {
        if e.hash in disk {
          FoundSound(front, s, e, disk, s.index[e.hash := s.index[e.hash].(lastUsed := now)], hash);
        } else {
          assert ScanSound(front, s.(index := s.index - {e.hash}), hash) by { IndexIgnored(front, s, s.index - {e.hash}, hash); }
          RequestedSound(front, s.(index := s.index - {e.hash}), e, hash);
        }
      }
    }
  }

  lemma IndexIgnored(entries: seq<Entry>, s: Scan, index: Index, hash: Bytes -> AssetHash)
    requires ScanSound(entries, s, hash)
    ensures ScanSound(entries, s.(index := index), hash)
  {
  }

  // ------------------------------------------- what is cached is not fetched again

  /** On record and still there. */
  predicate Cached(h: AssetHash, index: Index, disk: Disk) {
    h in index && h in disk
  }

  ghost predicate Listed(entries: seq<Entry>, h: AssetHash) {
    exists e :: e in entries && e.hash == h
  }

  /** The paths listed with a hash, in order. */
  function PathsOf(entries: seq<Entry>, h: AssetHash): seq<string> {
    if entries == [] then []
    else
      var front, e := PathsOf(entries[..|entries| - 1], h), entries[|entries| - 1];
      if e.hash == h then front + [e.path] else front
  }

  /** What the scan asks for: each listed file that is not cached, once. */
  ghost predicate AsksOnce(entries: seq<Entry>, index: Index, disk: Disk, missing: seq<AssetHash>) {
    Distinct(missing) && forall h :: h in missing <==> Listed(entries, h) && !Cached(h, index, disk)
  }

  /** And it awaits these for all the paths listed with them. */
  ghost predicate AwaitsPaths(entries: seq<Entry>, missing: seq<AssetHash>, pending: map<AssetHash, PendingFile>) {
    && (forall h :: h in pending <==> h in missing)
    && (forall h :: h in pending ==> Fresh(pending[h]) && pending[h].paths == PathsOf(entries, h))
  }

  ghost predicate AsksFor(entries: seq<Entry>, index: Index, disk: Disk, s: Scan) {
    AsksOnce(entries, index, disk, s.missing) && AwaitsPaths(entries, s.missing, s.transfer.pending)
  }

  /** What it leaves on record: everything but listed files that are gone, those
      listed now used last. */
  ghost predicate Touched(entries: seq<Entry>, index: Index, disk: Disk, now: int, after: Index) {
    && (forall h :: h in after <==> h in index && (Listed(entries, h) ==> h in disk))
    && (forall h :: h in after ==> after[h] == if Listed(entries, h) then index[h].(lastUsed := now) else index[h])
  }

  /** What it serves at once: the paths of cached files. */
  ghost predicate ServesPaths(entries: seq<Entry>, index: Index, disk: Disk, fs: map<string, Bytes>) {
    forall p :: p in fs <==> exists e :: e in entries && e.path == p && Cached(e.hash, index, disk)
  }

  lemma ListedMore(front: seq<Entry>, e: Entry)
    ensures forall h :: Listed(front + [e], h) <==> Listed(front, h) || h == e.hash
  {
    forall h
      ensures Listed(front + [e], h) <==> Listed(front, h) || h == e.hash
    {
      assert e in front + [e];
      if Listed(front, h) {
        var f :| f in front && f.hash == h;
        assert f in front + [e];
      }
    }
  }

  lemma ServesMore(front: seq<Entry>, e: Entry, index: Index, disk: Disk, fs: map<string, Bytes>, after: map<string, Bytes>)
    requires ServesPaths(front, index, disk, fs)
    requires forall p :: p in after <==> p in fs || (p == e.path && Cached(e.hash, index, disk))
    ensures ServesPaths(front + [e], index, disk, after)
  {
    forall p
      ensures p in after <==> exists f :: f in front + [e] && f.path == p && Cached(f.hash, index, disk)
    {
      assert e in front + [e];
      if p in fs {
        var f :| f in front && f.path == p && Cached(f.hash, index, disk);
        assert f in front + [e];
      }
    }
  }

  lemma PathsMore(front: seq<Entry>, e: Entry)
    ensures forall h :: PathsOf(front + [e], h) == if h == e.hash then PathsOf(front, h) + [e.path] else PathsOf(front, h)
  {
    assert (front + [e])[..|front|] == front;
  }

  lemma {:induction false} NoPaths(entries: seq<Entry>, h: AssetHash)
    requires !Listed(entries, h)
    ensures PathsOf(entries, h) == []
    decreases |entries|
  {
    if entries != [] {
      var front := entries[..|entries| - 1];
      assert entries[|entries| - 1] in entries && forall f :: f in front ==> f in entries;
      NoPaths(front, h);
    }
  }

  /** Everything cached is used and nothing else asked for. */
  ghost predicate UsesCache(entries: seq<Entry>, index: Index, disk: Disk, now: int, s: Scan) {
    && AsksFor(entries, index, disk, s)
    && Touched(entries, index, disk, now, s.index)
    && ServesPaths(entries, index, disk, s.transfer.virtualFs)
  }

  /** The scan uses everything cached and asks for nothing else: what it asks
      for, leaves on record and serves, in terms of what was there before. */
  lemma {:induction false} ScanUsesCache(entries: seq<Entry>, index: Index, disk: Disk, now: int)
    ensures UsesCache(entries, index, disk, now, Scanned(entries, index, disk, now))
    decreases |entries|
  {
    if entries != [] {
      var front, e := entries[..|entries| - 1], entries[|entries| - 1];
      assert entries == front + [e];
      ScanUsesCache(front, index, disk, now);
      hide Scanned;
      assert Scanned(entries, index, disk, now) == ScannedEntry(Scanned(front, index, disk, now), e, disk, now) by {
        ScannedMore(front, e, index, disk, now);
      }
      EntryUsesCache(front, e, index, disk, now, Scanned(front, index, disk, now));
    }
  }

  lemma ScannedMore(front: seq<Entry>, e: Entry, index: Index, disk: Disk, now: int)
    ensures Scanned(front + [e], index, disk, now) == ScannedEntry(Scanned(front, index, disk, now), e, disk, now)
  {
    assert (front + [e])[..|front|] == front;
  }

  lemma RequestedOnce(front: seq<Entry>, e: Entry, index: Index, disk: Disk, s: Scan)
    requires AsksOnce(front, index, disk, s.missing) && !Cached(e.hash, index, disk)
    requires e.hash in s.transfer.pending <==> e.hash in s.missing
    ensures AsksOnce(front + [e], index, disk, Requested(s, e).missing)
  {
    ListedMore(front, e);
    hide Listed, Cached, Distinct;
    if e.hash !in s.missing {
      OnceMore(s.missing, e.hash);
    }
  }

  lemma AwaitsAgain(front: seq<Entry>, e: Entry, s: Scan)
    requires AwaitsPaths(front, s.missing, s.transfer.pending) && e.hash in s.transfer.pending
    ensures AwaitsPaths(front + [e], Requested(s, e).missing, Requested(s, e).transfer.pending)
  {
    PathsMore(front, e);
    hide PathsOf;
  }

  lemma AwaitsNew(front: seq<Entry>, e: Entry, s: Scan)
    requires AwaitsPaths(front, s.missing, s.transfer.pending) && e.hash !in s.transfer.pending
    requires PathsOf(front, e.hash) == []
    ensures AwaitsPaths(front + [e], Requested(s, e).missing, Requested(s, e).transfer.pending)
  {
    PathsMore(front, e);
    assert [] + [e.path] == [e.path];
    hide PathsOf;
    var r := Requested(s, e);
    assert r.transfer.pending == s.transfer.pending[e.hash := PendingFile([e.path], e.size, [], 0, 0, false)];
    assert r.missing == s.missing + [e.hash];
    hide Requested;
    forall h | h in r.transfer.pending
      ensures Fresh(r.transfer.pending[h]) && r.transfer.pending[h].paths == PathsOf(front + [e], h)
    {
      if h != e.hash {
        assert h in s.transfer.pending;
      }
    }
  }

  lemma RequestedAwaitsPaths(front: seq<Entry>, e: Entry, s: Scan)
    requires AwaitsPaths(front, s.missing, s.transfer.pending)
    requires e.hash !in s.missing ==> PathsOf(front, e.hash) == []
    ensures AwaitsPaths(front + [e], Requested(s, e).missing, Requested(s, e).transfer.pending)
  {
    hide AwaitsPaths, Requested, PathsOf;
    assert e.hash in s.transfer.pending <==> e.hash in s.missing by { AwaitsMissing(front, e.hash, s); }
    if e.hash in s.transfer.pending {
      AwaitsAgain(front, e, s);
    } else {
      AwaitsNew(front, e, s);
    }
  }

  lemma AwaitsMissing(front: seq<Entry>, h: AssetHash, s: Scan)
    requires AwaitsPaths(front, s.missing, s.transfer.pending)
    ensures h in s.transfer.pending <==> h in s.missing
  {
  }

  lemma RequestedAsks(front: seq<Entry>, e: Entry, index: Index, disk: Disk, s: Scan)
    requires AsksFor(front, index, disk, s) && !Cached(e.hash, index, disk)
    ensures AsksFor(front + [e], index, disk, Requested(s, e))
  {
    if !Listed(front, e.hash) {
      NoPaths(front, e.hash);
    }
    hide Listed, PathsOf, Cached, Requested, Distinct, Fresh;
    RequestedOnce(front, e, index, disk, s);
    RequestedAwaitsPaths(front, e, s);
  }

  lemma OnceMore(missing: seq<AssetHash>, h: AssetHash)
    requires Distinct(missing) && h !in missing
    ensures Distinct(missing + [h]) && forall g :: g in missing + [h] <==> g in missing || g == h
  {
  }

  lemma AsksWhateverIndex(front: seq<Entry>, index: Index, disk: Disk, s: Scan, other: Index)
    requires AsksFor(front, index, disk, s)
    ensures AsksFor(front, index, disk, s.(index := other))
  {
  }

  lemma FoundAsks(front: seq<Entry>, e: Entry, index: Index, disk: Disk, s: Scan, r: Scan)
    requires AsksFor(front, index, disk, s) && Cached(e.hash, index, disk)
    requires r.missing == s.missing && r.transfer.pending == s.transfer.pending
    ensures AsksFor(front + [e], index, disk, r)
  {
    ListedMore(front, e);
    PathsMore(front, e);
    hide Listed, PathsOf, Cached;
  }

  /** Where the scan looks for an entry is where it was at the start. */
  lemma StillCached(front: seq<Entry>, e: Entry, index: Index, disk: Disk, now: int, s: Scan)
    requires AsksFor(front, index, disk, s) && Touched(front, index, disk, now, s.index)
    ensures Cached(e.hash, index, disk) <==> e.hash !in s.transfer.pending && e.hash in s.index && e.hash in disk
  {
    hide Listed, PathsOf, Fresh, Distinct;
  }

  lemma EntryTouches(front: seq<Entry>, e: Entry, index: Index, disk: Disk, now: int, s: Scan)
    requires AsksFor(front, index, disk, s) && Touched(front, index, disk, now, s.index)
    ensures Touched(front + [e], index, disk, now, ScannedEntry(s, e, disk, now).index)
  {
    ListedMore(front, e);
    hide Listed, PathsOf, Fresh, Distinct;
  }

  /** An entry is found, or asked for with its record, if any, dropped. */
  lemma EntryIs(s: Scan, e: Entry, disk: Disk, now: int)
    ensures var r := ScannedEntry(s, e, disk, now);
            if e.hash !in s.transfer.pending && e.hash in s.index && e.hash in disk then
              && r.missing == s.missing && r.transfer.pending == s.transfer.pending
              && r.transfer.virtualFs == s.transfer.virtualFs[e.path := disk[e.hash]]
            else r.transfer.virtualFs == s.transfer.virtualFs && exists other :: r == Requested(s.(index := other), e)
  {
    assert s == s.(index := s.index);
  }

  lemma EntryAsks(front: seq<Entry>, e: Entry, index: Index, disk: Disk, now: int, s: Scan)
    requires AsksFor(front, index, disk, s) && Touched(front, index, disk, now, s.index)
    ensures AsksFor(front + [e], index, disk, ScannedEntry(s, e, disk, now))
  {
    var r := ScannedEntry(s, e, disk, now);
    StillCached(front, e, index, disk, now, s);
    EntryIs(s, e, disk, now);
    hide AsksFor, Touched, Cached, ScannedEntry, Requested;
    if Cached(e.hash, index, disk) {
      FoundAsks(front, e, index, disk, s, r);
    } else {
      var other :| r == Requested(s.(index := other), e);
      AsksWhateverIndex(front, index, disk, s, other);
      RequestedAsks(front, e, index, disk, s.(index := other));
    }
  }

  lemma EntryUsesCache(front: seq<Entry>, e: Entry, index: Index, disk: Disk, now: int, s: Scan)
    requires AsksFor(front, index, disk, s) && Touched(front, index, disk, now, s.index)
    requires ServesPaths(front, index, disk, s.transfer.virtualFs)
    ensures var r := ScannedEntry(s, e, disk, now);
            && AsksFor(front + [e], index, disk, r)
            && Touched(front + [e], index, disk, now, r.index)
            && ServesPaths(front + [e], index, disk, r.transfer.virtualFs)
  {
    hide AsksFor, Touched, ServesPaths, Cached, ScannedEntry, Requested;
    var r := ScannedEntry(s, e, disk, now);
    StillCached(front, e, index, disk, now, s);
    EntryIs(s, e, disk, now);
    EntryAsks(front, e, index, disk, now, s);
    EntryTouches(front, e, index, disk, now, s);
    ServesMore(front, e, index, disk, s.transfer.virtualFs, r.transfer.virtualFs);
  }

  /** With distinct paths, each path of a cached file is served its bytes. */
  lemma {:induction false} CachedIsServed(entries: seq<Entry>, index: Index, disk: Disk, now: int, e: Entry)
    requires DistinctPaths(entries) && e in entries && Cached(e.hash, index, disk)
    ensures var fs := Scanned(entries, index, disk, now).transfer.virtualFs;
            e.path in fs && fs[e.path] == disk[e.hash]
    decreases |entries|
  {
    var front, last := entries[..|entries| - 1], entries[|entries| - 1];
    assert entries == front + [last] && last in entries;
    var s := Scanned(front, index, disk, now);
    ScannedMore(front, last, index, disk, now);
    hide Scanned, AsksFor, Touched, ServesPaths, ScannedEntry;
    ScanUsesCache(front, index, disk, now);
    StillCached(front, last, index, disk, now, s);
    EntryIs(s, last, disk, now);
    if e in front {
      CachedIsServed(front, index, disk, now, e);
      assert e.path != last.path;
    }
  }

  /** And a file asked for is expected to be as large as its first entry says. */
  lemma {:induction false} ExpectsListedSize(entries: seq<Entry>, index: Index, disk: Disk, now: int, i: nat)
    requires i < |entries| && forall j :: 0 <= j < i ==> entries[j].hash != entries[i].hash
    ensures var (pending, h) := (Scanned(entries, index, disk, now).transfer.pending, entries[i].hash);
            h in pending ==> pending[h].expectedSize == entries[i].size
    decreases |entries|
  {
    var front, last := entries[..|entries| - 1], entries[|entries| - 1];
    assert entries == front + [last];
    var s := Scanned(front, index, disk, now);
    ScannedMore(front, last, index, disk, now);
    hide Scanned, Touched, ServesPaths, ScannedEntry, PathsOf, Fresh, Distinct;
    ScanUsesCache(front, index, disk, now);
    StillCached(front, last, index, disk, now, s);
    EntryIs(s, last, disk, now);
    if i < |front| {
      assert front[i] in front;
      ExpectsListedSize(front, index, disk, now, i);
    }
  }

  /** Exactly when a frame is refused: nobody asked for the file, it is complete,
      the frame is not the next one, the file is or becomes too large, or it is
      the last frame and the file is not the one asked for. */
  lemma RefusedIff(t: Transfer, chunk: AssetData, hash: Bytes -> AssetHash)
    ensures !Ingested(t, chunk, hash).1 <==>
            chunk.hash !in t.pending || t.pending[chunk.hash].done || chunk.num != t.pending[chunk.hash].received ||
            t.pending[chunk.hash].expectedSize > 33554432 ||
            (var file := t.pending[chunk.hash].buffer + chunk.bytes;
             |file| > 33554432 || (chunk.num + 1 >= chunk.total && hash(file) != chunk.hash))
  {
  }

  /** A refused frame serves nothing and completes nothing. A file whose last frame
      came in order but whose bytes have another hash is given up; any other file
      stays awaited as it was, but for bytes of a frame too many. */
  lemma RefusedLeaves(t: Transfer, chunk: AssetData, hash: Bytes -> AssetHash)
    requires !Ingested(t, chunk, hash).1
    ensures var (r, h) := (Ingested(t, chunk, hash).0, chunk.hash);
            && r.virtualFs == t.virtualFs && r.pending.Keys <= t.pending.Keys
            && (forall g :: g in t.pending && g != h ==> g in r.pending && r.pending[g] == t.pending[g])
            && (h in r.pending ==> r.pending[h] == t.pending[h].(buffer := r.pending[h].buffer))
            && (h in t.pending && h !in r.pending <==>
                  h in t.pending && !t.pending[h].done && chunk.num == t.pending[h].received &&
                  t.pending[h].expectedSize <= 33554432 && chunk.num + 1 >= chunk.total &&
                  var file := t.pending[h].buffer + chunk.bytes; |file| <= 33554432 && hash(file) != h)
  {
  }

  /** Only the file the frame belongs to is affected, and the rest of the file
      system; an accepted frame adds its bytes, the last completes the file. */
  lemma AcceptedAdds(t: Transfer, chunk: AssetData, hash: Bytes -> AssetHash)
    requires Ingested(t, chunk, hash).1
    ensures var (r, h) := (Ingested(t, chunk, hash).0, chunk.hash);
            && r.pending.Keys == t.pending.Keys
            && (forall g :: g in t.pending && g != h ==> r.pending[g] == t.pending[g])
            && r.pending[h].buffer == t.pending[h].buffer + chunk.bytes
            && r.pending[h].received == t.pending[h].received + 1 && r.pending[h].paths == t.pending[h].paths
            && (r.pending[h].done <==> chunk.num + 1 >= chunk.total)
            && (if r.pending[h].done then
                  && (forall p :: p in t.pending[h].paths ==> p in r.virtualFs && r.virtualFs[p] == r.pending[h].buffer)
                  && (forall p :: p !in t.pending[h].paths ==>
                        (p in r.virtualFs <==> p in t.virtualFs) && (p in t.virtualFs ==> r.virtualFs[p] == t.virtualFs[p]))
                else r.virtualFs == t.virtualFs)
  {
    var pf := t.pending[chunk.hash];
    StoredAtIs(t.virtualFs, pf.paths, pf.buffer + chunk.bytes);
  }

  // ------------------------------------------------------- the transfer itself

  /** Ingests frames until one is refused. */
  function IngestRun(t: Transfer, frames: seq<AssetData>, hash: Bytes -> AssetHash): (Transfer, bool) {
    if frames == [] then (t, true)
    else
      var (before, ok) := IngestRun(t, frames[..|frames| - 1], hash);
      if ok then Ingested(before, frames[|frames| - 1], hash) else (before, false)
  }

  lemma {:induction false} IngestRunAppend(t: Transfer, a: seq<AssetData>, b: seq<AssetData>, hash: Bytes -> AssetHash)
    requires IngestRun(t, a, hash).1
    ensures IngestRun(t, a + b, hash) == IngestRun(IngestRun(t, a, hash).0, b, hash)
    decreases |b|
  {
    if b == [] {
      assert a + b == a;
    } else {
      assert (a + b)[..|a + b| - 1] == a + b[..|b| - 1];
      IngestRunAppend(t, a, b[..|b| - 1], hash);
    }
  }

  /** The cache after k of a file's frames, not all of them. */
  function Partial(t: Transfer, h: AssetHash, file: Bytes, k: nat): Transfer
    requires h in t.pending && k < ChunkCount(|file|)
  {
    t.(pending := t.pending[h := t.pending[h].(
      buffer := file[..Min(k * CHUNK_BYTES, |file|)], received := k,
      total := if k == 0 then t.pending[h].total else ChunkCount(|file|))])
  }

  /** The cache after all of a file's frames. */
  function Finished(t: Transfer, h: AssetHash, file: Bytes): Transfer
    requires h in t.pending
  {
    var n := ChunkCount(|file|);
    Transfer(t.pending[h := t.pending[h].(buffer := file, received := n, total := n, done := true)],
             StoredAt(t.virtualFs, t.pending[h].paths, file))
  }

  ghost predicate Acceptable(t: Transfer, h: AssetHash, file: Bytes, hash: Bytes -> AssetHash) {
    && h in t.pending && Fresh(t.pending[h]) && t.pending[h].expectedSize <= MAX_FILE_BYTES
    && |file| <= MAX_FILE_BYTES && hash(file) == h
  }

  lemma FrameAccepted(t: Transfer, h: AssetHash, file: Bytes, k: nat, hash: Bytes -> AssetHash)
    requires Acceptable(t, h, file, hash) && k < ChunkCount(|file|)
    ensures Ingested(Partial(t, h, file, k), FrameOf(h, file, k), hash) ==
            (if k + 1 == ChunkCount(|file|) then Finished(t, h, file) else Partial(t, h, file, k + 1), true)
  {
    var n := ChunkCount(|file|);
    var p := Partial(t, h, file, k);
    var pf := p.pending[h];
    assert k * CHUNK_BYTES <= (n - 1) * CHUNK_BYTES <= |file|;
    var buffer := pf.buffer + FrameOf(h, file, k).bytes;
    assert buffer == file[..Min((k + 1) * CHUNK_BYTES, |file|)];
    if k + 1 == n {
      assert Min((k + 1) * CHUNK_BYTES, |file|) == |file|;
      assert buffer == file;
      assert p.pending[h := Finished(t, h, file).pending[h]] == Finished(t, h, file).pending;
    } else {
      assert p.pending[h := Partial(t, h, file, k + 1).pending[h]] == Partial(t, h, file, k + 1).pending;
    }
  }

  lemma {:induction false} FrameAt(h: AssetHash, file: Bytes, from: nat, i: nat)
    requires from + i < ChunkCount(|file|)
    ensures FramesFrom(h, file, from)[i] == FrameOf(h, file, from + i)
    decreases i
  {
    if i > 0 {
      FrameAt(h, file, from + 1, i - 1);
    }
  }

  lemma {:induction false} FileAccepted(t: Transfer, h: AssetHash, file: Bytes, k: nat, hash: Bytes -> AssetHash)
    requires Acceptable(t, h, file, hash) && k <= ChunkCount(|file|)
    ensures IngestRun(t, FramesFrom(h, file, 0)[..k], hash) ==
            (if k == ChunkCount(|file|) then Finished(t, h, file) else Partial(t, h, file, k), true)
    decreases k
  {
    var frames := FramesFrom(h, file, 0);
    if k == 0 {
      assert t.pending[h := t.pending[h]] == t.pending;
    } else {
      hide Ingested, Partial, Finished, Acceptable, FramesFrom;
      FileAccepted(t, h, file, k - 1, hash);
      FrameAccepted(t, h, file, k - 1, hash);
      FrameAt(h, file, 0, k - 1);
      assert frames[..k][..k - 1] == frames[..k - 1];
    }
  }

  /** The files numbered j and up are still awaited, the earlier ones stored. */
  ghost predicate Midway(entries: seq<Entry>, t: Transfer, missing: seq<AssetHash>, j: nat, hash: Bytes -> AssetHash) {
    && j <= |missing| && Distinct(missing) && Accounted(entries, t, hash)
    && (forall h :: h in t.pending <==> h in missing)
    && (forall i :: 0 <= i < j ==> missing[i] in t.pending && t.pending[missing[i]].done)
    && (forall i :: j <= i < |missing| ==> missing[i] in t.pending && Fresh(t.pending[missing[i]]))
    && (forall i :: j <= i < |missing| ==> t.pending[missing[i]].expectedSize <= MAX_FILE_BYTES)
  }

  lemma {:induction false} StoredAtIs(fs: map<string, Bytes>, paths: seq<string>, bytes: Bytes)
    ensures forall p :: p in StoredAt(fs, paths, bytes) <==> p in fs || p in paths
    ensures forall p :: p in StoredAt(fs, paths, bytes) ==>
              StoredAt(fs, paths, bytes)[p] == if p in paths then bytes else fs[p]
    decreases |paths|
  {
    if paths != [] {
      StoredAtIs(fs, paths[..|paths| - 1], bytes);
      assert paths == paths[..|paths| - 1] + [paths[|paths| - 1]];
    }
  }

  lemma SamePathSameHash(entries: seq<Entry>, e: Entry, h: AssetHash)
    requires DistinctPaths(entries) && e in entries && Names(entries, e.path, h)
    ensures e.hash == h
  {
    var f :| f in entries && f.path == e.path && f.hash == h;
    var i :| 0 <= i < |entries| && entries[i] == e;
    var j :| 0 <= j < |entries| && entries[j] == f;
  }

  lemma FinishedAccounted(entries: seq<Entry>, t: Transfer, h: AssetHash, file: Bytes, hash: Bytes -> AssetHash)
    requires DistinctPaths(entries) && Accounted(entries, t, hash) && Acceptable(t, h, file, hash)
    ensures Accounted(entries, Finished(t, h, file), hash)
  {
    var r := Finished(t, h, file);
    StoredAtIs(t.virtualFs, t.pending[h].paths, file);
    forall e | e in entries
      ensures Served(r, e, hash) || Awaited(r, e)
    {
      if e.path in t.pending[h].paths {
        SamePathSameHash(entries, e, h);
      } else {
        assert Served(t, e, hash) || Awaited(t, e);
      }
    }
    forall p | p in r.virtualFs
      ensures exists g :: Names(entries, p, g)
    {
      if p in t.pending[h].paths {
        assert Names(entries, p, h);
      }
    }
  }

  lemma FinishedMidway(entries: seq<Entry>, t: Transfer, missing: seq<AssetHash>, j: nat, file: Bytes, hash: Bytes -> AssetHash)
    requires DistinctPaths(entries) && Midway(entries, t, missing, j, hash) && j < |missing|
    requires Acceptable(t, missing[j], file, hash)
    ensures Midway(entries, Finished(t, missing[j], file), missing, j + 1, hash)
  {
    hide Accounted;
    FinishedAccounted(entries, t, missing[j], file, hash);
  }

  ghost predicate Available(files: Disk, missing: seq<AssetHash>, hash: Bytes -> AssetHash) {
    forall h :: h in missing ==> h in files && hash(files[h]) == h && |files[h]| <= MAX_FILE_BYTES
  }

  /** The file system holds exactly the manifest's paths, with the listed hashes. */
  ghost predicate Exact(entries: seq<Entry>, fs: map<string, Bytes>, hash: Bytes -> AssetHash) {
    && (forall p :: p in fs <==> exists h :: Names(entries, p, h))
    && (forall e :: e in entries ==> e.path in fs && hash(fs[e.path]) == e.hash)
  }

  /** The frames of the first file still missing, then those of the others. */
  lemma StreamSplits(files: Disk, missing: seq<AssetHash>, j: nat, hash: Bytes -> AssetHash)
    requires j < |missing| && Available(files, missing, hash)
    ensures missing[j] in files
    ensures Stream(files, missing[j..]) == FramesFrom(missing[j], files[missing[j]], 0) + Stream(files, missing[j + 1..])
  {
    assert missing[j] in missing;
    assert missing[j..][0] == missing[j] && missing[j..][1..] == missing[j + 1..];
  }

  /** Within the frames of one file the transfer is never complete. */
  lemma WithinFileAccepted(entries: seq<Entry>, t: Transfer, missing: seq<AssetHash>, j: nat,
                           files: Disk, k: nat, hash: Bytes -> AssetHash)
    requires Midway(entries, t, missing, j, hash) && Available(files, missing, hash)
    requires j < |missing| && missing[j] in files && k < |FramesFrom(missing[j], files[missing[j]], 0)|
    ensures var (r, ok) := IngestRun(t, FramesFrom(missing[j], files[missing[j]], 0)[..k], hash);
            ok && !AllReceived(r)
  {
    hide *;
    NextAcceptable(entries, t, missing, j, files, hash);
    FileAccepted(t, missing[j], files[missing[j]], k, hash);
    PartialNotReceived(t, missing[j], files[missing[j]], k, hash);
  }

  /** After the frames of one file the transfer stands before the next. */
  lemma WholeFileAccepted(entries: seq<Entry>, t: Transfer, missing: seq<AssetHash>, j: nat,
                          files: Disk, more: seq<AssetData>, hash: Bytes -> AssetHash)
    requires DistinctPaths(entries) && Midway(entries, t, missing, j, hash) && Available(files, missing, hash)
    requires j < |missing| && missing[j] in files
    ensures var next := Finished(t, missing[j], files[missing[j]]);
            && Midway(entries, next, missing, j + 1, hash)
            && IngestRun(t, FramesFrom(missing[j], files[missing[j]], 0) + more, hash) == IngestRun(next, more, hash)
  {
    hide *;
    var file := files[missing[j]];
    var first := FramesFrom(missing[j], file, 0);
    NextAcceptable(entries, t, missing, j, files, hash);
    FileAccepted(t, missing[j], file, |first|, hash);
    assert first[..|first|] == first;
    IngestRunAppend(t, first, more, hash);
    FinishedMidway(entries, t, missing, j, file, hash);
  }

  /** From any file on, every frame of the rest of the stream is accepted, the
      transfer is complete at its last frame and no sooner, and then exact. */
  lemma {:induction false} StreamAccepted(entries: seq<Entry>, t: Transfer, missing: seq<AssetHash>, j: nat,
                                          files: Disk, k: nat, hash: Bytes -> AssetHash)
    requires DistinctPaths(entries) && Midway(entries, t, missing, j, hash) && Available(files, missing, hash)
    requires k <= |Stream(files, missing[j..])|
    ensures var stream := Stream(files, missing[j..]);
            var (r, ok) := IngestRun(t, stream[..k], hash);
            ok && (AllReceived(r) <==> k == |stream|) && (k == |stream| ==> Exact(entries, r.virtualFs, hash))
    decreases |missing| - j
  {
    if j == |missing| {
      StreamEnds(entries, t, missing, files, k, hash);
    } else {
      hide *;
      StreamSplits(files, missing, j, hash);
      var h, rest := missing[j], Stream(files, missing[j + 1..]);
      var first := FramesFrom(h, files[h], 0);
      PrefixOfSum(first, rest, k);
      if k < |first| {
        WithinFileAccepted(entries, t, missing, j, files, k, hash);
      } else {
        WholeFileAccepted(entries, t, missing, j, files, rest[..k - |first|], hash);
        StreamAccepted(entries, Finished(t, h, files[h]), missing, j + 1, files, k - |first|, hash);
      }
    }
  }

  lemma StreamEnds(entries: seq<Entry>, t: Transfer, missing: seq<AssetHash>, files: Disk, k: nat, hash: Bytes -> AssetHash)
    requires Midway(entries, t, missing, |missing|, hash)
    requires Available(files, missing, hash) && k <= |Stream(files, missing[|missing|..])|
    ensures k == 0 == |Stream(files, missing[|missing|..])|
    ensures IngestRun(t, Stream(files, missing[|missing|..])[..k], hash) == (t, true)
    ensures AllReceived(t) && Exact(entries, t.virtualFs, hash)
  {
    hide Midway, AllReceived, Exact, Available;
    NothingLeft(entries, t, missing, hash);
  }

  lemma PrefixOfSum<T>(first: seq<T>, rest: seq<T>, k: nat)
    requires k <= |first + rest|
    ensures (first + rest)[..k] == if k < |first| then first[..k] else first + rest[..k - |first|]
  {
  }

  lemma NothingLeft(entries: seq<Entry>, t: Transfer, missing: seq<AssetHash>, hash: Bytes -> AssetHash)
    requires Midway(entries, t, missing, |missing|, hash)
    ensures AllReceived(t) && Exact(entries, t.virtualFs, hash)
  {
    forall h | h in t.pending
      ensures t.pending[h].done
    {
      var i :| 0 <= i < |missing| && missing[i] == h;
    }
    AllServed(entries, t, hash);
  }

  lemma NextAcceptable(entries: seq<Entry>, t: Transfer, missing: seq<AssetHash>, j: nat, files: Disk, hash: Bytes -> AssetHash)
    requires Midway(entries, t, missing, j, hash) && j < |missing| && Available(files, missing, hash)
    ensures missing[j] in files && Acceptable(t, missing[j], files[missing[j]], hash)
  {
    assert missing[j] in missing;
  }

  lemma PartialNotReceived(t: Transfer, h: AssetHash, file: Bytes, k: nat, hash: Bytes -> AssetHash)
    requires Acceptable(t, h, file, hash) && k < ChunkCount(|file|)
    ensures !AllReceived(Partial(t, h, file, k))
  {
    assert !Partial(t, h, file, k).pending[h].done;
  }

  lemma AllServed(entries: seq<Entry>, t: Transfer, hash: Bytes -> AssetHash)
    requires Accounted(entries, t, hash) && AllReceived(t)
    ensures Exact(entries, t.virtualFs, hash)
  {
    forall e | e in entries
      ensures e.path in t.virtualFs && hash(t.virtualFs[e.path]) == e.hash
    {
      assert Served(t, e, hash) || Awaited(t, e);
    }
    forall p | exists h :: Names(entries, p, h)
      ensures p in t.virtualFs
    {
      var h :| Names(entries, p, h);
      var e :| e in entries && e.path == p && e.hash == h;
      assert e.path in t.virtualFs;
    }
  }

  /** A file stored, under its hash, and the files evicted to make room for it. */
  datatype Storing = Storing(h: AssetHash, file: Bytes, gone: set<AssetHash>)

  function DiskAfter(disk: Disk, storings: seq<Storing>): Disk {
    if storings == [] then disk
    else
      var last := storings[|storings| - 1];
      (DiskAfter(disk, storings[..|storings| - 1]) - last.gone)[last.h := last.file]
  }

  /** A sound cache stays sound through any number of transfers: a file is stored
      only under its own hash, and eviction only forgets. */
  lemma {:induction false} StoringStaysSound(disk: Disk, storings: seq<Storing>, hash: Bytes -> AssetHash)
    requires Sound(disk, hash) && forall s :: s in storings ==> hash(s.file) == s.h
    ensures Sound(DiskAfter(disk, storings), hash)
    decreases |storings|
  {
    if storings != [] {
      var front := storings[..|storings| - 1];
      assert storings[|storings| - 1] in storings && forall s :: s in front ==> s in storings;
      StoringStaysSound(disk, front, hash);
    }
  }

  /** Asset transfer is exact: whatever a sound cache holds, for a manifest with distinct
      paths and files within the cap, every frame of the server's stream is
      accepted, everything is received precisely at the last one, and the
      virtual file system then maps exactly the manifest's paths to bytes with
      the listed hashes. */
  lemma TransferExact(entries: seq<Entry>, index: Index, disk: Disk, files: Disk, now: int, k: nat, hash: Bytes -> AssetHash)
    requires DistinctPaths(entries) && Sized(entries) && Sound(disk, hash)
    requires forall e :: e in entries ==> e.hash in files && hash(files[e.hash]) == e.hash && |files[e.hash]| <= MAX_FILE_BYTES
    requires k <= |Stream(files, Scanned(entries, index, disk, now).missing)|
    ensures var s := Scanned(entries, index, disk, now);
            var stream := Stream(files, s.missing);
            var (t, ok) := IngestRun(s.transfer, stream[..k], hash);
            ok && (AllReceived(t) <==> k == |stream|) && (k == |stream| ==> Exact(entries, t.virtualFs, hash))
  {
    var s := Scanned(entries, index, disk, now);
    ScannedSound(entries, index, disk, now, hash);
    assert s.missing[0..] == s.missing;
    StreamAccepted(entries, s.transfer, s.missing, 0, files, k, hash);
  }

  /** The remembered-manifest fast path: once a full manifest has been seen, a
      message with its hash and no entries starts the same transfer as the full
      one, and that transfer too ends exact. */
  lemma FastPathIsExact(entries: seq<Entry>, manifestHash: AssetHash, manifests: map<AssetHash, seq<Entry>>,
                        index: Index, disk: Disk, files: Disk, now: int, hash: Bytes -> AssetHash)
    requires manifestHash != ZERO_HASH && (entries != [] || manifestHash !in manifests)
    requires DistinctPaths(entries) && Sized(entries) && Sound(disk, hash)
    requires forall e :: e in entries ==> e.hash in files && hash(files[e.hash]) == e.hash && |files[e.hash]| <= MAX_FILE_BYTES
    ensures var after := Remembered(entries, manifestHash, manifests);
            var fast := Scanned(EntryList([], manifestHash, after), index, disk, now);
            var (t, ok) := IngestRun(fast.transfer, Stream(files, fast.missing), hash);
            fast == Scanned(EntryList(entries, manifestHash, manifests), index, disk, now) &&
            ok && AllReceived(t) && Exact(entries, t.virtualFs, hash)
  {
    hide Scanned, IngestRun, Stream, Exact, AllReceived;
    var stream := Stream(files, Scanned(entries, index, disk, now).missing);
    TransferExact(entries, index, disk, files, now, |stream|, hash);
    assert stream[..|stream|] == stream;
  }

  // ------------------------------------------------------ and not a second time

  /** That is what ingest_chunk promises when it evicts nothing. */
  lemma KeptIsIngested(c: CacheState, chunk: AssetData, now: int, hash: Bytes -> AssetHash, gone: set<AssetHash>, after: CacheState)
    requires gone == {} && after.transfer == Ingested(c.transfer, chunk, hash).0
    requires if Ingested(c.transfer, chunk, hash).1 && after.transfer.pending[chunk.hash].done then
               var file := c.transfer.pending[chunk.hash].buffer + chunk.bytes;
               && after.index == (c.index - gone)[chunk.hash := IndexEntry(|file|, now)]
               && after.disk == (c.disk - gone)[chunk.hash := file]
             else after.index == c.index && after.disk == c.disk
    ensures after == Kept(c, chunk, now, hash)
  {
    assert c.index - {} == c.index && c.disk - {} == c.disk;
  }

  function KeptAll(c: CacheState, frames: seq<AssetData>, now: int, hash: Bytes -> AssetHash): CacheState {
    if frames == [] then c else Kept(KeptAll(c, frames[..|frames| - 1], now, hash), frames[|frames| - 1], now, hash)
  }

  ghost predicate HoldsDone(c: CacheState) {
    forall h :: h in c.transfer.pending && c.transfer.pending[h].done ==> Cached(h, c.index, c.disk)
  }

  ghost predicate Grown(before: CacheState, after: CacheState) {
    forall h :: Cached(h, before.index, before.disk) ==> Cached(h, after.index, after.disk)
  }

  lemma KeptHolds(c: CacheState, chunk: AssetData, now: int, hash: Bytes -> AssetHash)
    requires HoldsDone(c) && Ingested(c.transfer, chunk, hash).1
    ensures HoldsDone(Kept(c, chunk, now, hash)) && Grown(c, Kept(c, chunk, now, hash))
    ensures Kept(c, chunk, now, hash).transfer.pending.Keys == c.transfer.pending.Keys
  {
    AcceptedAdds(c.transfer, chunk, hash);
    hide Ingested;
  }

  lemma {:induction false} KeptAllHolds(c: CacheState, frames: seq<AssetData>, now: int, hash: Bytes -> AssetHash)
    requires HoldsDone(c) && IngestRun(c.transfer, frames, hash).1
    ensures var r := KeptAll(c, frames, now, hash);
            && r.transfer == IngestRun(c.transfer, frames, hash).0
            && HoldsDone(r) && Grown(c, r) && r.transfer.pending.Keys == c.transfer.pending.Keys
    decreases |frames|
  {
    if frames != [] {
      hide Ingested, HoldsDone;
      var front := frames[..|frames| - 1];
      KeptAllHolds(c, front, now, hash);
      KeptHolds(KeptAll(c, front, now, hash), frames[|frames| - 1], now, hash);
    }
  }

  /** After a transfer that evicted nothing the same manifest asks for nothing. */
  lemma AsksNothingAgain(entries: seq<Entry>, index: Index, disk: Disk, files: Disk, now: int, later: int, hash: Bytes -> AssetHash)
    requires DistinctPaths(entries) && Sized(entries) && Sound(disk, hash)
    requires forall e :: e in entries ==> e.hash in files && hash(files[e.hash]) == e.hash && |files[e.hash]| <= MAX_FILE_BYTES
    ensures var s := Scanned(entries, index, disk, now);
            var c := KeptAll(CacheState(s.transfer, s.index, disk), Stream(files, s.missing), now, hash);
            Scanned(entries, c.index, c.disk, later).missing == []
  {
    var s := Scanned(entries, index, disk, now);
    var stream := Stream(files, s.missing);
    hide Scanned, IngestRun, Stream, KeptAll, Exact;
    TransferExact(entries, index, disk, files, now, |stream|, hash);
    assert stream[..|stream|] == stream;
    ScanUsesCache(entries, index, disk, now);
    var start := CacheState(s.transfer, s.index, disk);
    assert HoldsDone(start) by { NothingDone(entries, index, disk, s); }
    KeptAllHolds(start, stream, now, hash);
    AllCached(entries, index, disk, now, s, KeptAll(start, stream, now, hash));
    ScanUsesCache(entries, KeptAll(start, stream, now, hash).index, KeptAll(start, stream, now, hash).disk, later);
    NothingAsked(entries, KeptAll(start, stream, now, hash), Scanned(entries, KeptAll(start, stream, now, hash).index, KeptAll(start, stream, now, hash).disk, later));
  }

  lemma NothingDone(entries: seq<Entry>, index: Index, disk: Disk, s: Scan)
    requires AsksFor(entries, index, disk, s)
    ensures HoldsDone(CacheState(s.transfer, s.index, disk))
  {
  }

  lemma AllCached(entries: seq<Entry>, index: Index, disk: Disk, now: int, s: Scan, c: CacheState)
    requires AsksFor(entries, index, disk, s) && Touched(entries, index, disk, now, s.index)
    requires Grown(CacheState(s.transfer, s.index, disk), c) && HoldsDone(c) && AllReceived(c.transfer)
    requires c.transfer.pending.Keys == s.transfer.pending.Keys
    ensures forall h :: Listed(entries, h) ==> Cached(h, c.index, c.disk)
  {
    hide Listed, PathsOf, Distinct, Fresh;
    forall h | Listed(entries, h)
      ensures Cached(h, c.index, c.disk)
    {
      if Cached(h, index, disk) {
        assert Cached(h, s.index, disk);
      } else {
        assert h in s.missing && h in c.transfer.pending;
      }
    }
  }

  lemma NothingAsked(entries: seq<Entry>, c: CacheState, s: Scan)
    requires AsksFor(entries, c.index, c.disk, s) && forall h :: Listed(entries, h) ==> Cached(h, c.index, c.disk)
    ensures s.missing == []
  {
    hide Listed, Cached, PathsOf;
    SomeIn(s.missing);
  }

  lemma SomeIn(missing: seq<AssetHash>)
    ensures missing == [] || missing[0] in missing
  {
  }
}
