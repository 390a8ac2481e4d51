/** 512-byte blocks. */
module Blocks {
  import opened Prelude

  type byte = bv8

  const BSIZE := 512

  type Block = b: seq<byte> | |b| == BSIZE witness Repeat(0, BSIZE)

  const ZERO: Block := Repeat(0, BSIZE)
}

/** The extent server as a store of blocks, and the client's write-back cache of
    it. `Cached` is one data entry of the cache; `None` means not cached. */
module ExtentCache {
  import opened Prelude
  import opened Blocks

  type ExtentId = nat

  datatype Cached = Cached(data: Block, dirty: bool)

  function Read(entry: Option<Cached>, store: Block): Block {
    if entry.Some? then entry.value.data else store
  }

  function Fetch(entry: Option<Cached>, store: Block): Option<Cached> {
    if entry.Some? then entry else Some(Cached(store, false))
  }

  /** What a flush leaves in the store; the entry is erased. */
  function WriteBack(entry: Option<Cached>, store: Block): Block {
    if entry.Some? && entry.value.dirty then entry.value.data else store
  }

  /** The disk file is sparse: a block never written reads as zeros. */
  class ExtentServer {
    var blocks: map<ExtentId, Block>

    function Stored(eid: ExtentId): Block
      reads this
    {
      if eid in blocks then blocks[eid] else ZERO
    }

    constructor ()
      ensures forall eid :: Stored(eid) == ZERO
    {
      blocks := map[];
    }

    method Put(eid: ExtentId, buf: Block)
      modifies this
      ensures Stored(eid) == buf
      ensures forall other :: other != eid ==> Stored(other) == old(Stored(other))
    {
      blocks := blocks[eid := buf];
    }
  }

  /** A cache entry of the source: a data block with its two flags. A new entry
      is neither cached nor dirty. */
  datatype Entry = Entry(data: Block, dataCached: bool, dataDirty: bool)

  class CacheClient {
    const server: ExtentServer
    var cacheMap: map<ExtentId, Entry>

    ghost predicate Valid()
      reads this
    {
      forall eid :: eid in cacheMap && cacheMap[eid].dataDirty ==> cacheMap[eid].dataCached
    }

    ghost function View(eid: ExtentId): Option<Cached>
      reads this
    {
      if eid in cacheMap && cacheMap[eid].dataCached
      then Some(Cached(cacheMap[eid].data, cacheMap[eid].dataDirty)) else None
    }

    constructor (server: ExtentServer)
      ensures Valid() && this.server == server
      ensures forall eid :: View(eid) == None
    {
      this.server := server;
      cacheMap := map[];
    }

    /** `cache_map[eid]`: a missing entry is created. */
    method Touch(eid: ExtentId)
      requires Valid()
      modifies this
      ensures Valid() && eid in cacheMap
      ensures forall e :: View(e) == old(View(e))
    {
      if eid !in cacheMap {
        cacheMap := cacheMap[eid := Entry(ZERO, false, false)];
      }
    }

    method Get(eid: ExtentId) returns (buf: Block)
      requires Valid()
      modifies this
      ensures Valid()
      ensures buf == Read(old(View(eid)), server.Stored(eid))
      ensures View(eid) == Fetch(old(View(eid)), server.Stored(eid))
      ensures forall other :: other != eid ==> View(other) == old(View(other))
    {
      Touch(eid);
      if cacheMap[eid].dataCached {
        return cacheMap[eid].data;
      }
      buf := server.Stored(eid);
      cacheMap := cacheMap[eid := Entry(buf, true, false)];
    }

    method Put(eid: ExtentId, buf: Block)
      requires Valid()
      modifies this
      ensures Valid()
      ensures View(eid) == Some(Cached(buf, true))
      ensures forall other :: other != eid ==> View(other) == old(View(other))
    {
      Touch(eid);
      cacheMap := cacheMap[eid := Entry(buf, true, true)];
    }

    method Flush(eid: ExtentId)
      requires Valid()
      modifies this, server
      ensures Valid()
      ensures View(eid) == None
      ensures server.Stored(eid) == old(WriteBack(View(eid), server.Stored(eid)))
      ensures forall other :: other != eid ==>
                View(other) == old(View(other)) && server.Stored(other) == old(server.Stored(other))
    {
      Touch(eid);
      if cacheMap[eid].dataDirty {
        server.Put(eid, cacheMap[eid].data);
      }
      cacheMap := cacheMap - {eid};
    }
  }
}
