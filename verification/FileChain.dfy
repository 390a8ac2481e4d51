/** A file as a chain of inodes with sixteen direct blocks each. */
module FileChain {
  import opened Prelude
  import opened Blocks
  import opened Volume

  /** The inodes of the chain and the data blocks, in order. */
  datatype FileRep = FileRep(inodes: seq<Inum>, blocks: seq<Inum>)

  function NextOf(r: FileRep, j: nat): Inum {
    if j + 1 < |r.inodes| then r.inodes[j + 1] else 0
  }

  function SlotOf(r: FileRep, k: nat): Inum {
    if k < |r.blocks| then r.blocks[k] else 0
  }

  ghost predicate InodeOk(d: Disk, role: Roles, f: Inum, r: FileRep, j: nat)
    requires j < |r.inodes|
  {
    var b := r.inodes[j];
    && b in role && role[b] == Inode(f, j)
    && At(d, b).FileNode?
    && At(d, b).file.next == NextOf(r, j)
    && |At(d, b).file.slots| == DIRECT
    && forall i :: 0 <= i < DIRECT ==> At(d, b).file.slots[i] == SlotOf(r, DIRECT * j + i)
  }

  ghost predicate DataOk(d: Disk, role: Roles, f: Inum, r: FileRep, k: nat)
    requires k < |r.blocks|
  {
    var b := r.blocks[k];
    b in role && role[b] == Data(f, k) && At(d, b).Raw?
  }

  ghost predicate ChainOk(d: Disk, role: Roles, f: Inum, r: FileRep) {
    && |r.inodes| > 0 && r.inodes[0] == f
    && DIRECT * (|r.inodes| - 1) <= |r.blocks| <= DIRECT * |r.inodes|
    && (forall j :: 0 <= j < |r.inodes| ==> InodeOk(d, role, f, r, j))
    && (forall k :: 0 <= k < |r.blocks| ==> DataOk(d, role, f, r, k))
  }

  ghost predicate Holds(r: FileRep, b: Inum) {
    b in r.inodes || b in r.blocks
  }

  lemma Members(d: Disk, role: Roles, f: Inum, r: FileRep)
    requires ChainOk(d, role, f, r) && BitsOk(d, role)
    ensures forall b: Inum :: Holds(r, b) ==>
              b in role && (role[b].Inode? || role[b].Data?) && role[b].file == f && !IsReserved(b) && b < CAPACITY
  {
    forall b: Inum | Holds(r, b)
      ensures b in role && (role[b].Inode? || role[b].Data?) && role[b].file == f
    {
      if b in r.inodes {
        var j :| 0 <= j < |r.inodes| && r.inodes[j] == b;
        assert InodeOk(d, role, f, r, j);
      } else {
        var k :| 0 <= k < |r.blocks| && r.blocks[k] == b;
        assert DataOk(d, role, f, r, k);
      }
    }
  }

  /** Byte p of the chain's blocks laid end to end. */
  function ByteAt(d: Disk, r: FileRep, p: nat): byte
    requires p < BSIZE * |r.blocks|
  {
    if At(d, r.blocks[p / BSIZE]).Raw? then At(d, r.blocks[p / BSIZE]).bytes[p % BSIZE] else 0
  }

  /** Roles are only added. */
  ghost predicate RolesGrow(role: Roles, role': Roles) {
    forall b :: b in role ==> b in role' && role'[b] == role[b]
  }

  lemma ChainFrame(d: Disk, role: Roles, f: Inum, r: FileRep, d': Disk, role': Roles)
    requires ChainOk(d, role, f, r) && RolesGrow(role, role')
    requires forall b :: Holds(r, b) ==> At(d', b) == At(d, b)
    ensures ChainOk(d', role', f, r)
  {
    forall j | 0 <= j < |r.inodes| ensures InodeOk(d', role', f, r, j) {
      assert InodeOk(d, role, f, r, j) && Holds(r, r.inodes[j]);
    }
    forall k | 0 <= k < |r.blocks| ensures DataOk(d', role', f, r, k) {
      assert DataOk(d, role, f, r, k) && Holds(r, r.blocks[k]);
    }
  }

  function WithInode(r: FileRep, b: Inum): FileRep {
    FileRep(r.inodes + [b], r.blocks)
  }

  function WithBlock(r: FileRep, b: Inum): FileRep {
    FileRep(r.inodes, r.blocks + [b])
  }

  const NEW_INODE := FileNode(BLANK_FILE.(mode := 1))

  function Last(r: FileRep): Inum
    requires |r.inodes| > 0
  {
    r.inodes[|r.inodes| - 1]
  }

  /** A new inode is put behind a full last one. */
  lemma InodeAdded(d: Disk, role: Roles, f: Inum, r: FileRep, b: Inum, d': Disk, role': Roles)
    requires ChainOk(d, role, f, r) && |r.blocks| == DIRECT * |r.inodes|
    requires b !in role && role' == role[b := Inode(f, |r.inodes|)]
    requires At(d, Last(r)).FileNode?
    requires At(d', b) == NEW_INODE && At(d', Last(r)) == FileNode(At(d, Last(r)).file.(next := b))
    requires forall i :: Holds(r, i) && i != Last(r) ==> At(d', i) == At(d, i)
    ensures ChainOk(d', role', f, WithInode(r, b))
  {
    var r' := WithInode(r, b);
    forall j | 0 <= j < |r'.inodes| ensures InodeOk(d', role', f, r', j) {
      if j < |r.inodes| {
        assert InodeOk(d, role, f, r, j) && Holds(r, r.inodes[j]);
        assert InodeOk(d, role, f, r, |r.inodes| - 1);
        assert r.inodes[j] == Last(r) ==> j == |r.inodes| - 1;
      }
    }
    forall k | 0 <= k < |r'.blocks| ensures DataOk(d', role', f, r', k) {
      assert DataOk(d, role, f, r, k) && Holds(r, r.blocks[k]);
      assert InodeOk(d, role, f, r, |r.inodes| - 1);
    }
  }

  /** A new zero block is put into the first free slot. */
  lemma BlockAdded(d: Disk, role: Roles, f: Inum, r: FileRep, b: Inum, d': Disk, role': Roles)
    requires ChainOk(d, role, f, r) && |r.blocks| < DIRECT * |r.inodes|
    requires b !in role && role' == role[b := Data(f, |r.blocks|)]
    requires At(d, Last(r)).FileNode? && |At(d, Last(r)).file.slots| == DIRECT
    requires At(d', b) == BLANK
    requires At(d', Last(r)) == FileNode(At(d, Last(r)).file.(slots := At(d, Last(r)).file.slots[|r.blocks| % DIRECT := b]))
    requires forall i :: Holds(r, i) && i != Last(r) ==> At(d', i) == At(d, i)
    ensures ChainOk(d', role', f, WithBlock(r, b))
  {
    var r' := WithBlock(r, b);
    var n := |r.inodes| - 1;
    assert |r.blocks| == DIRECT * n + |r.blocks| % DIRECT;
    forall j | 0 <= j < |r'.inodes| ensures InodeOk(d', role', f, r', j) {
      assert InodeOk(d, role, f, r, j) && Holds(r, r.inodes[j]);
      assert InodeOk(d, role, f, r, n);
      assert r.inodes[j] == Last(r) ==> j == n;
    }
    forall k | 0 <= k < |r'.blocks| ensures DataOk(d', role', f, r', k) {
      if k < |r.blocks| {
        assert DataOk(d, role, f, r, k) && Holds(r, r.blocks[k]);
        assert InodeOk(d, role, f, r, n);
      }
    }
  }

  /** Writing one data block changes its bytes and nothing else. */
  lemma BlockWritten(d: Disk, role: Roles, f: Inum, r: FileRep, k: nat, bytes: Block)
    requires ChainOk(d, role, f, r) && k < |r.blocks|
    ensures var d' := d[r.blocks[k] := Raw(bytes)];
      && ChainOk(d', role, f, r)
      && forall p :: 0 <= p < BSIZE * |r.blocks| ==>
           ByteAt(d', r, p) == if p / BSIZE == k then bytes[p % BSIZE] else ByteAt(d, r, p)
  {
    var d' := d[r.blocks[k] := Raw(bytes)];
    assert DataOk(d, role, f, r, k);
    forall j | 0 <= j < |r.inodes| ensures InodeOk(d', role, f, r, j) {
      assert InodeOk(d, role, f, r, j);
    }
    forall i | 0 <= i < |r.blocks| ensures DataOk(d', role, f, r, i) && (r.blocks[i] == r.blocks[k] ==> i == k) {
      assert DataOk(d, role, f, r, i);
    }
  }

  /** Changing the header fields of the first inode keeps chain and bytes. */
  lemma HeaderWritten(d: Disk, role: Roles, f: Inum, r: FileRep, n: FileInode)
    requires ChainOk(d, role, f, r)
    requires At(d, f).FileNode? && n.slots == At(d, f).file.slots && n.next == At(d, f).file.next
    ensures ChainOk(d[f := FileNode(n)], role, f, r)
    ensures forall p :: 0 <= p < BSIZE * |r.blocks| ==> ByteAt(d[f := FileNode(n)], r, p) == ByteAt(d, r, p)
  {
    var d' := d[f := FileNode(n)];
    assert InodeOk(d, role, f, r, 0);
    forall j | 0 <= j < |r.inodes| ensures InodeOk(d', role, f, r, j) {
      assert InodeOk(d, role, f, r, j);
    }
    forall k | 0 <= k < |r.blocks| ensures DataOk(d', role, f, r, k) && r.blocks[k] != f {
      assert DataOk(d, role, f, r, k);
    }
  }

  // ----- the file as bytes -----

  /** The bytes past the end of the file are zero. */
  ghost predicate FileOk(d: Disk, role: Roles, f: Inum, r: FileRep) {
    && ChainOk(d, role, f, r)
    && At(d, f).FileNode?
    && At(d, f).file.size <= BSIZE * |r.blocks|
    && forall p :: At(d, f).file.size <= p < BSIZE * |r.blocks| ==> ByteAt(d, r, p) == 0
  }

  /** The file at `f` is the byte string `c`. */
  ghost predicate Contains(d: Disk, role: Roles, f: Inum, r: FileRep, c: seq<byte>) {
    && FileOk(d, role, f, r)
    && |c| == At(d, f).file.size
    && forall p :: 0 <= p < |c| ==> c[p] == ByteAt(d, r, p)
  }

  function Max(a: nat, b: nat): nat {
    if a > b then a else b
  }

  /** `c` with `data` laid over it at `off`; a gap reads as zeros. */
  function Overlay(c: seq<byte>, off: nat, data: seq<byte>): (o: seq<byte>)
    ensures |o| == Max(|c|, off + |data|)
    ensures forall p :: 0 <= p < |o| ==>
              o[p] == if off <= p < off + |data| then data[p - off] else if p < |c| then c[p] else 0
  {
    var padded := c + Repeat(0, Max(|c|, off + |data|) - |c|);
    padded[..off] + data + padded[off + |data|..]
  }
}
