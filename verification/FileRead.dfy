/** `inner_read`. */
module FileRead {
  import opened Prelude
  import opened Blocks
  import opened Volume
  import opened FileChain
  import opened FileSteps
  import opened FileWrite

  function Min(a: nat, b: nat): nat {
    if a < b then a else b
  }

  /** How many bytes a read of `n` at `off` returns from a file of `size` bytes in
      `blocks` blocks. `inner_read` counts what is left from the start of the block
      of `off`, not from `off`, and stops at the last block. */
  function ReadLength(size: nat, blocks: nat, n: nat, off: nat): nat {
    var start := off - off % BSIZE;
    if size <= start || BSIZE * blocks <= off then 0
    else Min(Min(n, size - start), BSIZE * blocks - off)
  }

  /** How many it should return. */
  function ExactLength(size: nat, n: nat, off: nat): nat {
    if size <= off then 0 else Min(n, size - off)
  }

  /** A caller can tell from the length and the number of blocks. */
  predicate ReadIsExact(size: nat, blocks: nat, n: nat, off: nat) {
    || n == 0 || off % BSIZE == 0 || off + n <= size
    || size <= off - off % BSIZE || size == BSIZE * blocks
  }

  /** The read is exact if and only if nothing is asked for, the offset is on a block
      boundary, the range lies inside the file, the file ends at or before the block
      of the offset, or it fills its last block. */
  lemma ExactlyWhen(size: nat, blocks: nat, n: nat, off: nat)
    requires size <= BSIZE * blocks
    ensures ReadLength(size, blocks, n, off) == ExactLength(size, n, off) <==> ReadIsExact(size, blocks, n, off)
  {
  }

  /** A read returns as many bytes as were asked for, as lie between the start of the block
      of the offset and the end of the file, and as there are up to the end of the last
      block: so never fewer than it should, and at most `off % 512` more. */
  lemma ReadsMost(size: nat, blocks: nat, n: nat, off: nat, m: nat)
    requires size <= 512 * blocks
    ensures m <= ReadLength(size, blocks, n, off) <==>
              m == 0 || (m <= n && off - off % 512 + m <= size && off + m <= 512 * blocks)
    ensures ExactLength(size, n, off) <= ReadLength(size, blocks, n, off) <= ExactLength(size, n, off) + off % 512
  {
  }

  /** A hundred bytes asked for at offset 50 of a file of a hundred bytes: fifty too
      many come back. */
  lemma UnalignedReadOverruns()
    ensures ReadLength(100, 1, 100, 50) == 100 && ExactLength(100, 100, 50) == 50
  {
  }

  ghost predicate AtInode(d: Disk, r: FileRep, j: nat, node: FileInode) {
    j < |r.inodes| && At(d, r.inodes[j]) == FileNode(node)
  }

  /** The cursor is on block k, which exists. */
  ghost predicate OnData(d: Disk, r: FileRep, j: nat, node: FileInode, index: nat, k: nat) {
    && AtInode(d, r, j, node) && index < DIRECT && |node.slots| == DIRECT
    && DIRECT * j + index == k < |r.blocks| && node.slots[index] == r.blocks[k]
  }

  /** "Touch the data block" of the read loops: finds block k, or that there is none. */
  method TouchRead(v: Vol, ino: Inum, node: FileInode, index: nat, ghost r: FileRep, ghost j: nat)
    returns (found: bool, node': FileInode, index': nat, ghost j': nat)
    requires Ready(v, ino, r) && AtInode(v.disk, r, j, node) && index <= DIRECT
    modifies v`held, v`stray
    ensures v.held == old(v.held) && v.stray == old(v.stray)
    ensures found <==> DIRECT * j + index < |r.blocks|
    ensures found ==> OnData(v.disk, r, j', node', index', DIRECT * j + index)
  {
    node', index', j' := node, index, j;
    assert InodeOk(v.disk, v.role, ino, r, j);
    Members(v.disk, v.role, ino, r);
    if index >= DIRECT {
      if j + 1 < |r.inodes| {
        assert Holds(r, r.inodes[j + 1]) && InodeOk(v.disk, v.role, ino, r, j + 1) && InodeOk(v.disk, v.role, ino, r, 0);
      }
      if node.next == 0 {
        return false, node, index, j;
      }
      BitmapOf(node.next);
      var ok, n := v.SafeGet(node.next, ino);
      node', index', j' := AsFile(n), 0, j + 1;
    }
    if DIRECT * j + index < |r.blocks| {
      assert Holds(r, r.blocks[DIRECT * j + index]);
    }
    found := node'.slots[index'] != 0;
  }

  /** The first loop: walks to the block of the offset. It gives up at a missing
      block, or when less than a full block of the file is left before the offset. */
  method SeekRead(v: Vol, ino: Inum, node0: FileInode, off0: nat, ghost r: FileRep)
    returns (found: bool, node: FileInode, index: nat, off: nat, filesize: nat, ghost j: nat)
    requires Ready(v, ino, r) && AtInode(v.disk, r, 0, node0)
    modifies v`held, v`stray
    ensures v.held == old(v.held) && v.stray == old(v.stray)
    ensures found <==> off0 / BSIZE < |r.blocks| && BSIZE * (off0 / BSIZE) <= node0.size
    ensures found ==> OnData(v.disk, r, j, node, index, off0 / BSIZE)
    ensures found ==> off == off0 % BSIZE && filesize == node0.size - BSIZE * (off0 / BSIZE)
  {
    node, index, off, filesize, j := node0, 0, off0, node0.size, 0;
    ghost var k := 0;
    while true
      invariant v.held == old(v.held) && v.stray == old(v.stray)
      invariant AtInode(v.disk, r, j, node) && index <= DIRECT && k == DIRECT * j + index
      invariant off0 == BSIZE * k + off && node0.size == BSIZE * k + filesize
      decreases off
    {
      found, node, index, j := TouchRead(v, ino, node, index, r, j);
      if !found {
        return;
      }
      if off < BSIZE {
        return;
      }
      if filesize < BSIZE {
        found := false;
        return;
      }
      off, filesize, index := off - BSIZE, filesize - BSIZE, index + 1;
      k := k + 1;
    }
  }

  /** The bytes read so far are the chain's bytes from `off0` on. */
  ghost predicate Copied(d: Disk, r: FileRep, off0: nat, buf: seq<byte>) {
    && (buf == [] || off0 + |buf| <= BSIZE * |r.blocks|)
    && forall i :: 0 <= i < |buf| ==> off0 + i < BSIZE * |r.blocks| && buf[i] == ByteAt(d, r, off0 + i)
  }

  /** Appends m bytes of the block under the cursor. */
  method CopyChunk(v: Vol, ino: Inum, b: Inum, off: nat, m: nat, buf: seq<byte>, ghost r: FileRep, ghost k: nat, ghost off0: nat)
    returns (more: seq<byte>)
    requires Ready(v, ino, r) && k < |r.blocks| && b == r.blocks[k] && off + m <= BSIZE
    requires Copied(v.disk, r, off0, buf) && off0 + |buf| == BSIZE * k + off
    modifies v`held, v`stray
    ensures v.held == old(v.held) && v.stray == old(v.stray)
    ensures |more| == |buf| + m && Copied(v.disk, r, off0, more)
  {
    assert DataOk(v.disk, v.role, ino, r, k) && Holds(r, b) && InodeOk(v.disk, v.role, ino, r, 0);
    Members(v.disk, v.role, ino, r);
    BitmapOf(b);
    var ok, n := v.SafeGet(b, ino);
    more := buf + n.bytes[off..off + m];
  }

  method ReadLoop(v: Vol, ino: Inum, node0: FileInode, index0: nat, start: nat, filesize0: nat, n0: nat,
                  ghost off0: nat, ghost r: FileRep, ghost j0: nat)
    returns (buf: seq<byte>)
    requires Ready(v, ino, r) && OnData(v.disk, r, j0, node0, index0, off0 / BSIZE)
    requires start == off0 % BSIZE && n0 > 0
    modifies v`held, v`stray
    ensures v.held == old(v.held) && v.stray == old(v.stray)
    ensures Copied(v.disk, r, off0, buf)
    ensures |buf| == Min(Min(n0, filesize0), BSIZE * |r.blocks| - off0)
  {
    var node, index: nat, off: nat, filesize: nat, n: nat := node0, index0, start, filesize0, n0;
    ghost var j, k := j0, off0 / BSIZE;
    buf := [];
    while true
      invariant v.held == old(v.held) && v.stray == old(v.stray)
      invariant AtInode(v.disk, r, j, node) && index <= DIRECT && k == DIRECT * j + index
      invariant off0 + |buf| == BSIZE * k + off && off < BSIZE && (buf != [] ==> off == 0 && filesize > 0)
      invariant buf == [] ==> k < |r.blocks|
      invariant k <= |r.blocks|
      invariant n + |buf| == n0 && filesize + |buf| == filesize0 && n > 0
      invariant Copied(v.disk, r, off0, buf)
      decreases n
    {
      var found;
      found, node, index, j := TouchRead(v, ino, node, index, r, j);
      if !found {
        return;
      }
      var left := Min(n, filesize);
      if left <= BSIZE - off {
        buf := CopyChunk(v, ino, node.slots[index], off, left, buf, r, k, off0);
        return;
      }
      buf := CopyChunk(v, ino, node.slots[index], off, BSIZE - off, buf, r, k, off0);
      n, filesize := n - (BSIZE - off), filesize - (BSIZE - off);
      off, index := 0, index + 1;
      k := k + 1;
    }
  }

  /** The slice a read should return. */
  function Slice(c: seq<byte>, off: nat, n: nat): (s: seq<byte>)
    ensures |s| == ExactLength(|c|, n, off)
    ensures forall i :: 0 <= i < |s| ==> s[i] == c[off + i]
  {
    if off >= |c| then [] else c[off..Min(off + n, |c|)]
  }

  /** The contents with the zeros behind them, to the end of the last block. */
  function Padded(c: seq<byte>, blocks: nat): seq<byte> {
    c + Repeat(0, Max(BSIZE * blocks, |c|) - |c|)
  }

  lemma SliceOfPadded(d: Disk, role: Roles, ino: Inum, r: FileRep, c: seq<byte>, off: nat, buf: seq<byte>)
    requires Contains(d, role, ino, r, c) && Copied(d, r, off, buf)
    ensures buf == Slice(Padded(c, |r.blocks|), off, |buf|)
  {
    var p := Padded(c, |r.blocks|);
    forall i | 0 <= i < |buf| ensures off + i < |p| && buf[i] == p[off + i] {
      assert buf[i] == ByteAt(d, r, off + i);
    }
  }

  lemma SliceWhen(d: Disk, role: Roles, ino: Inum, r: FileRep, c: seq<byte>, off: nat, n: nat, buf: seq<byte>)
    requires Contains(d, role, ino, r, c) && Copied(d, r, off, buf)
    requires |buf| == ReadLength(|c|, |r.blocks|, n, off)
    ensures buf == Slice(c, off, n) <==> ReadIsExact(|c|, |r.blocks|, n, off)
  {
    ExactlyWhen(|c|, |r.blocks|, n, off);
    if |buf| == ExactLength(|c|, n, off) {
      assert buf == Slice(c, off, n);
    }
  }

  /** `inner_read`: NOENT if the inode is not in use and something is asked for. The
      bytes are the file's, followed by zeros of its last block if there are too many;
      they are the slice asked for exactly when `ReadIsExact` says so. The file keeps its contents. */
  method InnerRead(v: Vol, ino: Inum, n: nat, off: nat, now: nat, ghost r: FileRep, ghost c: seq<byte>)
    returns (ok: bool, buf: seq<byte>)
    requires v.Valid() && (forall b :: b in v.held ==> !IsBitmap(b)) && ino < CAPACITY && !IsBitmap(ino)
    requires ino in v.role ==> Ready(v, ino, r) && Contains(v.disk, v.role, ino, r, c)
    modifies v
    ensures ok <==> n == 0 || ino in old(v.role)
    ensures ok && ino in old(v.role) ==>
              && |buf| == ReadLength(|c|, |r.blocks|, n, off)
              && buf == Slice(Padded(c, |r.blocks|), off, |buf|)
              && (buf == Slice(c, off, n) <==> ReadIsExact(|c|, |r.blocks|, n, off))
    ensures v.role == old(v.role)
    ensures ino in v.role ==> Ready(v, ino, r) && Contains(v.disk, v.role, ino, r, c)
    ensures if n == 0 || ino !in v.role then v.disk == old(v.disk)
            else HeaderOf(v.disk, ino) == HeaderOf(old(v.disk), ino).(atime := now)
    ensures Grew(old(v.disk), old(v.role), v.disk, v.role, ino)
    ensures v.held == old(v.held) && StrayOk(old(v.stray), v.stray, v.held, ino)
  {
    buf := [];
    if n == 0 {
      return true, [];
    }
    BitmapOf(ino);
    var node;
    ok, node := v.SafeGet(ino, ino);
    if !ok {
      return;
    }
    PutHeader(v, ino, AsFile(node).(atime := now), r);
    buf := ReadBody(v, ino, AsFile(node).(atime := now), n, off, r);
    SliceWhen(v.disk, v.role, ino, r, c, off, n, buf);
    SliceOfPadded(v.disk, v.role, ino, r, c, off, buf);
  }

  method ReadBody(v: Vol, ino: Inum, node: FileInode, n: nat, off: nat, ghost r: FileRep) returns (buf: seq<byte>)
    requires Ready(v, ino, r) && AtInode(v.disk, r, 0, node) && n > 0
    modifies v`held, v`stray
    ensures v.held == old(v.held) && v.stray == old(v.stray)
    ensures Copied(v.disk, r, off, buf) && |buf| == ReadLength(node.size, |r.blocks|, n, off)
  {
    var found, at, index, start, filesize;
    ghost var j;
    found, at, index, start, filesize, j := SeekRead(v, ino, node, off, r);
    if !found {
      return [];
    }
    buf := ReadLoop(v, ino, at, index, start, filesize, n, off, r, j);
  }
}
