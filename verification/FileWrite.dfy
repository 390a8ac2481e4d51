/** `inner_write`. */
module FileWrite {
  import opened Blocks
  import opened Volume
  import opened FileChain
  import opened FileSteps

  /** The last block a write touches. */
  function LastBlock(off: nat, size: nat): nat {
    if size == 0 then off / BSIZE else (off + size - 1) / BSIZE
  }

  /** The first loop: walks to the block of the offset, making blocks on the way. */
  method SeekBlock(v: Vol, ino: Inum, node0: FileInode, off0: nat, ghost r0: FileRep, ghost last: nat)
    returns (target: Inum, node: FileInode, index: nat, off: nat, filesize: int, ghost r: FileRep, ghost j: nat)
    requires Ready(v, ino, r0) && Cursor(v.disk, r0, 0, ino, node0)
    requires off0 / BSIZE <= last && Room(v.role, Needed(r0, last))
    requires FileOk(v.disk, v.role, ino, r0)
    modifies v
    ensures Ready(v, ino, r) && Stepped(old(Now(v)), Now(v), ino, r0, r)
    ensures OnBlock(v.disk, r, j, target, node, index) && DIRECT * j + index == off0 / BSIZE
    ensures off == off0 % BSIZE && filesize == node0.size - BSIZE * (off0 / BSIZE)
    ensures |r.blocks| <= Max(|r0.blocks|, last + 1) && Room(v.role, Needed(r, last))
  {
    target, node, index, off, filesize, r, j := ino, node0, 0, off0, node0.size, r0, 0;
    ghost var k := 0;
    while true
      invariant Ready(v, ino, r) && Stepped(old(Now(v)), Now(v), ino, r0, r)
      invariant Cursor(v.disk, r, j, target, node) && index <= DIRECT && k == DIRECT * j + index
      invariant k <= |r.blocks| <= Max(|r0.blocks|, last + 1) && Room(v.role, Needed(r, last))
      invariant off0 == BSIZE * k + off && filesize == node0.size - BSIZE * k
      decreases off
    {
      ghost var mid, rm := Now(v), r;
      target, node, index, r, j := Touch(v, ino, target, node, index, filesize, r, j, last);
      SteppedTwice(old(Now(v)), mid, Now(v), ino, r0, rm, r);
      if off >= BSIZE {
        off := off - BSIZE;
        filesize := filesize - BSIZE;
        index := index + 1;
        k := k + 1;
      } else {
        break;
      }
    }
  }

  /** Byte p before the write; blocks that did not exist read as zero. */
  ghost function OldByte(d: Disk, r: FileRep, p: nat): byte {
    if p < BSIZE * |r.blocks| then ByteAt(d, r, p) else 0
  }

  /** The first w bytes of `buf` have been laid over the chain at `off`. */
  ghost predicate Laid(d0: Disk, r0: FileRep, d: Disk, r: FileRep, off: nat, buf: seq<byte>, w: nat)
    requires w <= |buf|
  {
    && |r0.blocks| <= |r.blocks|
    && forall p :: 0 <= p < BSIZE * |r.blocks| ==>
         ByteAt(d, r, p) == if off <= p < off + w then buf[p - off] else OldByte(d0, r0, p)
  }

  /** Everything else about a write in progress. */
  ghost predicate Around(s0: Snap, s: Snap, ino: Inum) {
    && Grew(s0.disk, s0.role, s.disk, s.role, ino)
    && HeaderOf(s.disk, ino) == HeaderOf(s0.disk, ino)
    && s.held == s0.held && StrayOk(s0.stray, s.stray, s0.held, ino)
  }

  lemma AroundStepped(s0: Snap, s: Snap, s': Snap, ino: Inum, r: FileRep, r': FileRep)
    requires Around(s0, s, ino) && Stepped(s, s', ino, r, r')
    ensures Around(s0, s', ino)
  {
    GrewTwice(s0.disk, s0.role, s.disk, s.role, s'.disk, s'.role, ino);
  }

  lemma LaidStepped(d0: Disk, r0: FileRep, d: Disk, r: FileRep, d': Disk, r': FileRep, off: nat, buf: seq<byte>, w: nat)
    requires w <= |buf| && Laid(d0, r0, d, r, off, buf, w) && SameBytes(d, d', r, r')
    requires w > 0 ==> off + w <= BSIZE * |r.blocks|
    ensures Laid(d0, r0, d', r', off, buf, w)
  {
  }

  /** Reads one data block, replaces part of it and writes it back. */
  method PutChunk(v: Vol, ino: Inum, b: Inum, off: nat, chunk: seq<byte>, ghost r: FileRep, ghost k: nat)
    requires Ready(v, ino, r) && k < |r.blocks| && b == r.blocks[k] && off + |chunk| <= BSIZE
    modifies v
    ensures Ready(v, ino, r) && Around(old(Now(v)), Now(v), ino) && v.role == old(v.role)
    ensures forall x :: x != b ==> At(v.disk, x) == old(At(v.disk, x))
    ensures forall p :: 0 <= p < BSIZE * |r.blocks| ==>
              ByteAt(v.disk, r, p) == if BSIZE * k + off <= p < BSIZE * k + off + |chunk| then chunk[p - BSIZE * k - off]
                                      else ByteAt(old(v.disk), r, p)
  {
    assert DataOk(v.disk, v.role, ino, r, k) && Holds(r, b);
    assert InodeOk(v.disk, v.role, ino, r, 0);
    Members(v.disk, v.role, ino, r);
    BitmapOf(b);
    var ok, n := v.SafeGet(b, ino);
    var data: Block := n.bytes[..off] + chunk + n.bytes[off + |chunk|..];
    BlockWritten(v.disk, v.role, ino, r, k, data);
    ok := v.SafePut(b, Raw(data), ino);
  }

  lemma LaidMore(d0: Disk, r0: FileRep, d: Disk, d': Disk, r: FileRep, off0: nat, buf: seq<byte>, w: nat, n: nat, k: nat, off: nat)
    requires w + n <= |buf| && Laid(d0, r0, d, r, off0, buf, w) && off0 + w == BSIZE * k + off
    requires forall p :: 0 <= p < BSIZE * |r.blocks| ==>
               ByteAt(d', r, p) == if BSIZE * k + off <= p < BSIZE * k + off + n then buf[w..w + n][p - BSIZE * k - off]
                                   else ByteAt(d, r, p)
    ensures Laid(d0, r0, d', r, off0, buf, w + n)
  {
  }

  /** A block that starts past the old end and has not been written is zero. */
  lemma ZeroAhead(d0: Disk, role0: Roles, ino: Inum, r0: FileRep, d: Disk, r: FileRep,
                  off0: nat, buf: seq<byte>, w: nat, k: nat, off: nat)
    requires FileOk(d0, role0, ino, r0) && w <= |buf| && Laid(d0, r0, d, r, off0, buf, w)
    requires off0 + w == BSIZE * k + off && (w > 0 ==> off == 0)
    requires SizeOf(d0, ino) < BSIZE * k
    ensures ZeroBlock(d, r, k)
  {
  }

  /** What holds each time the second loop comes round: w bytes are written, and
      the cursor is where byte w goes. */
  ghost predicate Writing(s0: Snap, s: Snap, ino: Inum, r0: FileRep, r: FileRep, off0: nat, buf: seq<byte>,
                          w: nat, k: nat, off: nat, filesize: int, last: nat) {
    && Around(s0, s, ino) && w <= |buf| && Laid(s0.disk, r0, s.disk, r, off0, buf, w)
    && off0 + w == BSIZE * k + off && off < BSIZE && (w > 0 ==> off == 0)
    && k <= |r.blocks| && k <= last && Room(s.role, Needed(r, last))
    && filesize >= SizeOf(s0.disk, ino) - BSIZE * k
  }

  /** The touch at the head of the second loop. */
  method TouchForWrite(v: Vol, ino: Inum, target: Inum, node: FileInode, index: nat, filesize: int, off: nat,
                       buf: seq<byte>, w: nat, off0: nat, ghost s0: Snap, ghost r0: FileRep, ghost r: FileRep, ghost j: nat, ghost last: nat)
    returns (target': Inum, node': FileInode, index': nat, ghost r': FileRep, ghost j': nat)
    requires FileOk(s0.disk, s0.role, ino, r0)
    requires Ready(v, ino, r) && Cursor(v.disk, r, j, target, node) && index <= DIRECT
    requires Writing(s0, Now(v), ino, r0, r, off0, buf, w, DIRECT * j + index, off, filesize, last)
    modifies v
    ensures Ready(v, ino, r') && OnBlock(v.disk, r', j', target', node', index')
    ensures DIRECT * j' + index' == DIRECT * j + index
    ensures Writing(s0, Now(v), ino, r0, r', off0, buf, w, DIRECT * j' + index', off, filesize, last)
  {
    ghost var mid := Now(v);
    if filesize < 0 {
      ZeroAhead(s0.disk, s0.role, ino, r0, v.disk, r, off0, buf, w, DIRECT * j + index, off);
    }
    target', node', index', r', j' := Touch(v, ino, target, node, index, filesize, r, j, last);
    AroundStepped(s0, mid, Now(v), ino, r, r');
    LaidStepped(s0.disk, r0, mid.disk, r, v.disk, r', off0, buf, w);
  }

  /** The chunk of the second loop. */
  method WriteChunk(v: Vol, ino: Inum, target: Inum, node: FileInode, index: nat, off: nat, n: nat,
                    buf: seq<byte>, w: nat, ghost off0: nat, ghost s0: Snap, ghost r0: FileRep, ghost r: FileRep, ghost j: nat)
    requires Ready(v, ino, r) && OnBlock(v.disk, r, j, target, node, index) && Around(s0, Now(v), ino)
    requires w + n <= |buf| && off + n <= BSIZE && Laid(s0.disk, r0, v.disk, r, off0, buf, w)
    requires off0 + w == BSIZE * (DIRECT * j + index) + off
    modifies v
    ensures Ready(v, ino, r) && OnBlock(v.disk, r, j, target, node, index) && Around(s0, Now(v), ino)
    ensures v.role == old(v.role) && Laid(s0.disk, r0, v.disk, r, off0, buf, w + n)
  {
    ghost var k := DIRECT * j + index;
    ghost var mid := Now(v);
    assert DataOk(v.disk, v.role, ino, r, k) && InodeOk(v.disk, v.role, ino, r, j);
    PutChunk(v, ino, node.slots[index], off, buf[w..w + n], r, k);
    LaidMore(s0.disk, r0, mid.disk, v.disk, r, off0, buf, w, n, k, off);
    GrewTwice(s0.disk, s0.role, mid.disk, mid.role, v.disk, v.role, ino);
  }

  method WriteLoop(v: Vol, ino: Inum, target0: Inum, node0: FileInode, index0: nat, start: nat, filesize0: int,
                   buf: seq<byte>, off0: nat, ghost s0: Snap, ghost r0: FileRep, ghost r1: FileRep, ghost j1: nat)
    returns (ghost r: FileRep)
    requires FileOk(s0.disk, s0.role, ino, r0)
    requires Ready(v, ino, r1) && Cursor(v.disk, r1, j1, target0, node0) && index0 <= DIRECT
    requires Writing(s0, Now(v), ino, r0, r1, off0, buf, 0, DIRECT * j1 + index0, start, filesize0, LastBlock(off0, |buf|))
    modifies v
    ensures Ready(v, ino, r) && Around(s0, Now(v), ino)
    ensures Laid(s0.disk, r0, v.disk, r, off0, buf, |buf|) && off0 + |buf| <= BSIZE * |r.blocks|
  {
    ghost var last := LastBlock(off0, |buf|);
    var target, node, filesize := target0, node0, filesize0;
    var index: nat, off: nat, w: nat := index0, start, 0;
    r := r1;
    ghost var j := j1;
    while true
      invariant Ready(v, ino, r) && Cursor(v.disk, r, j, target, node) && index <= DIRECT
      invariant Writing(s0, Now(v), ino, r0, r, off0, buf, w, DIRECT * j + index, off, filesize, last)
      invariant w == 0 || w < |buf|
      decreases |buf| - w
    {
      target, node, index, r, j := TouchForWrite(v, ino, target, node, index, filesize, off, buf, w, off0, s0, r0, r, j, last);
      if |buf| - w <= BSIZE - off {
        WriteChunk(v, ino, target, node, index, off, |buf| - w, buf, w, off0, s0, r0, r, j);
        break;
      }
      WriteChunk(v, ino, target, node, index, off, BSIZE - off, buf, w, off0, s0, r0, r, j);
      w := w + (BSIZE - off);
      filesize := filesize - (BSIZE - off);
      off := 0;
      index := index + 1;
    }
  }

  /** Rewrites header fields of the first inode. */
  method PutHeader(v: Vol, ino: Inum, node: FileInode, ghost r: FileRep)
    requires Ready(v, ino, r) && At(v.disk, ino).FileNode?
    requires node.slots == At(v.disk, ino).file.slots && node.next == At(v.disk, ino).file.next
    modifies v
    ensures Ready(v, ino, r) && At(v.disk, ino) == FileNode(node) && v.role == old(v.role)
    ensures Grew(old(v.disk), old(v.role), v.disk, v.role, ino)
    ensures forall p :: 0 <= p < BSIZE * |r.blocks| ==> ByteAt(v.disk, r, p) == ByteAt(old(v.disk), r, p)
    ensures v.held == old(v.held) && StrayOk(old(v.stray), v.stray, v.held, ino)
  {
    assert InodeOk(v.disk, v.role, ino, r, 0) && Holds(r, ino);
    Members(v.disk, v.role, ino, r);
    BitmapOf(ino);
    HeaderWritten(v.disk, v.role, ino, r, node);
    var ok := v.SafePut(ino, FileNode(node), ino);
  }

  /** The body of `inner_write` between the two rewrites of the header. */
  method WriteBody(v: Vol, ino: Inum, node: FileInode, buf: seq<byte>, off: nat, ghost r0: FileRep) returns (ghost r: FileRep)
    requires Ready(v, ino, r0) && FileOk(v.disk, v.role, ino, r0) && At(v.disk, ino) == FileNode(node)
    requires Room(v.role, Needed(r0, LastBlock(off, |buf|)))
    modifies v
    ensures Ready(v, ino, r) && Around(old(Now(v)), Now(v), ino)
    ensures Laid(old(v.disk), r0, v.disk, r, off, buf, |buf|) && off + |buf| <= BSIZE * |r.blocks|
  {
    ghost var s0, last := Now(v), LastBlock(off, |buf|);
    var target, node', index, start, filesize;
    ghost var j;
    target, node', index, start, filesize, r, j := SeekBlock(v, ino, node, off, r0, last);
    assert Around(s0, Now(v), ino);
    assert Laid(s0.disk, r0, v.disk, r, off, buf, 0);
    r := WriteLoop(v, ino, target, node', index, start, filesize, buf, off, s0, r0, r, j);
  }

  lemma OverlayHeld(d0: Disk, role0: Roles, d: Disk, role: Roles, ino: Inum, r0: FileRep, r: FileRep,
                    c: seq<byte>, off: nat, buf: seq<byte>)
    requires Contains(d0, role0, ino, r0, c) && ChainOk(d, role, ino, r)
    requires Laid(d0, r0, d, r, off, buf, |buf|) && off + |buf| <= BSIZE * |r.blocks|
    requires At(d, ino).FileNode? && At(d, ino).file.size == Max(|c|, off + |buf|)
    ensures Contains(d, role, ino, r, Overlay(c, off, buf))
  {
  }

  lemma LaidFrom(d00: Disk, d0: Disk, r0: FileRep, d: Disk, r: FileRep, off: nat, buf: seq<byte>)
    requires Laid(d0, r0, d, r, off, buf, |buf|)
    requires forall p :: 0 <= p < BSIZE * |r0.blocks| ==> ByteAt(d0, r0, p) == ByteAt(d00, r0, p)
    ensures Laid(d00, r0, d, r, off, buf, |buf|)
  {
  }

  /** `inner_write`: NOENT if the inode is not in use; otherwise the file becomes
      its old bytes with `buf` laid over them at `off`, grown to the larger of the
      old length and `off + |buf|`, any gap zero. */
  method InnerWrite(v: Vol, ino: Inum, buf: seq<byte>, off: nat, now: nat, ghost r0: FileRep, ghost c: seq<byte>)
    returns (ok: bool, ghost r: FileRep)
    requires v.Valid() && (forall b :: b in v.held ==> !IsBitmap(b)) && ino < CAPACITY && !IsBitmap(ino)
    requires ino in v.role ==>
               Ready(v, ino, r0) && Contains(v.disk, v.role, ino, r0, c) && Room(v.role, Needed(r0, LastBlock(off, |buf|)))
    modifies v
    ensures ok <==> ino in old(v.role)
    ensures !ok ==> v.disk == old(v.disk) && v.role == old(v.role)
    ensures ok ==> Ready(v, ino, r) && Contains(v.disk, v.role, ino, r, Overlay(c, off, buf))
    ensures ok ==> HeaderOf(v.disk, ino) ==
                     HeaderOf(old(v.disk), ino).(atime := now, mtime := now, size := Max(|c|, off + |buf|))
    ensures Grew(old(v.disk), old(v.role), v.disk, v.role, ino)
    ensures v.held == old(v.held) && v.stray == if ok && ino !in v.held then old(v.stray) + {ino} else old(v.stray)
  {
    r := r0;
    BitmapOf(ino);
    var n;
    ok, n := v.SafeGet(ino, ino);
    if !ok {
      return;
    }
    var node := AsFile(n).(atime := now, mtime := now);
    PutHeader(v, ino, node, r0);
    ghost var d0, role0 := v.disk, v.role;
    r := WriteBody(v, ino, node, buf, off, r0);
    LaidFrom(old(v.disk), d0, r0, v.disk, r, off, buf);
    GrewTwice(old(v.disk), old(v.role), d0, role0, v.disk, v.role, ino);
    FinishWrite(v, ino, Max(node.size, off + |buf|), r, old(v.disk), old(v.role), r0, c, buf, off);
  }

  method FinishWrite(v: Vol, ino: Inum, size: nat, ghost r: FileRep, ghost d0: Disk, ghost role0: Roles,
                     ghost r0: FileRep, ghost c: seq<byte>, ghost buf: seq<byte>, ghost off: nat)
    requires Ready(v, ino, r) && Contains(d0, role0, ino, r0, c) && Grew(d0, role0, v.disk, v.role, ino)
    requires Laid(d0, r0, v.disk, r, off, buf, |buf|) && off + |buf| <= BSIZE * |r.blocks|
    requires size == Max(|c|, off + |buf|)
    modifies v
    ensures Ready(v, ino, r) && Contains(v.disk, v.role, ino, r, Overlay(c, off, buf))
    ensures HeaderOf(v.disk, ino) == HeaderOf(old(v.disk), ino).(size := size)
    ensures Grew(d0, role0, v.disk, v.role, ino)
    ensures v.held == old(v.held) && StrayOk(old(v.stray), v.stray, v.held, ino)
  {
    ghost var d1, role1 := v.disk, v.role;
    assert InodeOk(v.disk, v.role, ino, r, 0) && Holds(r, ino);
    Members(v.disk, v.role, ino, r);
    BitmapOf(ino);
    var ok, n := v.SafeGet(ino, ino);
    PutHeader(v, ino, AsFile(n).(size := size), r);
    GrewTwice(d0, role0, d1, role1, v.disk, v.role, ino);
    assert Laid(d0, r0, v.disk, r, off, buf, |buf|);
    OverlayHeld(d0, role0, v.disk, v.role, ino, r0, r, c, off, buf);
  }
}
