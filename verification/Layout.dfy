/** The inode structure in a block of 512 octets, as a 64-bit little-endian machine
    lays it out: the blocks by kind that the rest of the model works on are what such
    octets read as. */
module Layout {
  import opened Prelude
  import opened Wire
  import opened Blocks
  import opened Volume

  const SIZE_AT := 8
  const ATIME_AT := 16
  const MTIME_AT := 24
  const CTIME_AT := 32
  const UNION_AT := 40
  const ENTRY_SIZE := 72
  const NEXT_AT := 400
  const INODE_SIZE := 408

  const TWO64 := 0x1_0000_0000_0000_0000

  /** n octets of zero. */
  function Nuls(n: nat): seq<octet> {
    Repeat(0, n)
  }

  // ----- numbers -----

  function Le(n: nat, w: nat): (s: seq<octet>)
    ensures |s| == w
  {
    if w == 0 then [] else [n % 256] + Le(n / 256, w - 1)
  }

  function UnLe(s: seq<octet>): nat {
    if s == [] then 0 else s[0] + 256 * UnLe(s[1..])
  }

  lemma {:induction false} LeBack(n: nat, w: nat)
    requires n < Pow256(w)
    ensures UnLe(Le(n, w)) == n
  {
    if w > 0 {
      LeBack(n / 256, w - 1);
      assert Le(n, w)[1..] == Le(n / 256, w - 1);
    }
  }

  /** The lowest octet comes first. */
  lemma {:induction false} LeAt(n: nat, w: nat, i: nat)
    requires i < w
    ensures Le(n, w)[i] == Shifted(n, i) % 256
  {
    if i > 0 {
      LeAt(n / 256, w - 1, i - 1);
    }
  }

  lemma {:induction false} LeZero(w: nat)
    ensures Le(0, w) == Nuls(w)
  {
    if w > 0 {
      LeZero(w - 1);
      assert [0] + Nuls(w - 1) == Nuls(w);
    }
  }

  lemma EightBack(n: nat)
    requires n < TWO64
    ensures UnLe(Le(n, 8)) == n
  {
    assert Pow256(4) == TWO32 by {
      assert Pow256(2) == TWO16;
    }
    assert Pow256(6) == TWO32 * TWO16;
    assert Pow256(8) == TWO64;
    LeBack(n, 8);
  }

  function Field(s: seq<octet>, at: nat): nat
    requires at + 8 <= |s|
  {
    UnLe(s[at..at + 8])
  }

  // ----- the direct blocks -----

  function SlotOctets(slots: seq<Inum>): (s: seq<octet>)
    ensures |s| == 8 * |slots|
  {
    if slots == [] then [] else SlotOctets(slots[..|slots| - 1]) + Le(slots[|slots| - 1], 8)
  }

  lemma {:induction false} SlotBack(slots: seq<Inum>, i: nat)
    requires i < |slots|
    ensures SlotOctets(slots)[8 * i..8 * i + 8] == Le(slots[i], 8)
  {
    var n := |slots| - 1;
    var front := SlotOctets(slots[..n]);
    if i < n {
      SlotBack(slots[..n], i);
      assert SlotOctets(slots)[8 * i..8 * i + 8] == front[8 * i..8 * i + 8];
    } else {
      assert SlotOctets(slots)[8 * i..8 * i + 8] == Le(slots[i], 8);
    }
  }

  // ----- the entries -----

  /** A name that strcpy puts into its field and strcmp reads back. */
  predicate IsName(name: string) {
    |name| < NAME_LEN && forall i :: 0 <= i < |name| ==> 0 < name[i] as int < 256
  }

  function NameOctets(name: string): (s: seq<octet>)
    requires IsName(name)
    ensures |s| == NAME_LEN
  {
    seq(|name|, i requires 0 <= i < |name| => name[i] as int) + Nuls(NAME_LEN - |name|)
  }

  /** The characters before the first NUL. */
  function CString(s: seq<octet>): string {
    if s == [] || s[0] == 0 then "" else [s[0] as char] + CString(s[1..])
  }

  lemma {:induction false} NameBack(name: string, s: seq<octet>)
    requires IsName(name) && |s| > |name| && s[|name|] == 0
    requires forall i :: 0 <= i < |name| ==> s[i] == name[i] as int
    ensures CString(s) == name
  {
    if name != "" {
      NameBack(name[1..], s[1..]);
      assert [name[0]] + name[1..] == name;
    }
  }

  predicate EntryOk(e: Entry) {
    IsName(e.name) && e.inum < TWO64
  }

  function EntryOctets(e: Entry): (s: seq<octet>)
    requires EntryOk(e)
    ensures |s| == ENTRY_SIZE
  {
    NameOctets(e.name) + Le(e.inum, 8)
  }

  function EntryAt(s: seq<octet>): Entry
    requires |s| == ENTRY_SIZE
  {
    Entry(CString(s[..NAME_LEN]), UnLe(s[NAME_LEN..]))
  }

  lemma EntryBack(e: Entry)
    requires EntryOk(e)
    ensures EntryAt(EntryOctets(e)) == e
  {
    var s := EntryOctets(e);
    assert s[..NAME_LEN] == NameOctets(e.name) && s[NAME_LEN..] == Le(e.inum, 8);
    NameBack(e.name, NameOctets(e.name));
    EightBack(e.inum);
  }

  predicate EntriesOk(es: seq<Entry>) {
    forall i :: 0 <= i < |es| ==> EntryOk(es[i])
  }

  function EntriesOctets(es: seq<Entry>): (s: seq<octet>)
    requires EntriesOk(es)
    ensures |s| == ENTRY_SIZE * |es|
  {
    if es == [] then [] else EntriesOctets(es[..|es| - 1]) + EntryOctets(es[|es| - 1])
  }

  function EntriesAt(s: seq<octet>, n: nat): (es: seq<Entry>)
    requires ENTRY_SIZE * n <= |s|
    ensures |es| == n
  {
    if n == 0 then [] else EntriesAt(s, n - 1) + [EntryAt(s[ENTRY_SIZE * (n - 1)..ENTRY_SIZE * n])]
  }

  lemma LastSlice(a: seq<octet>, b: seq<octet>, s: seq<octet>)
    requires a + b <= s
    ensures s[|a|..|a| + |b|] == b
  {
    assert s[..|a + b|] == a + b;
  }

  lemma LastEntry(es: seq<Entry>, s: seq<octet>, n: nat)
    requires |es| == n + 1 && ENTRY_SIZE * (n + 1) <= |s|
    requires EntriesAt(s, n) == es[..n] && EntryAt(s[ENTRY_SIZE * n..ENTRY_SIZE * (n + 1)]) == es[n]
    ensures EntriesAt(s, n + 1) == es
  {
    assert es[..n] + [es[n]] == es;
  }

  lemma {:induction false} EntriesBack(es: seq<Entry>, s: seq<octet>)
    requires EntriesOk(es) && EntriesOctets(es) <= s
    ensures EntriesAt(s, |es|) == es
  {
    if es != [] {
      var n := |es| - 1;
      var front, last := EntriesOctets(es[..n]), EntryOctets(es[n]);
      LastSlice(front, last, s);
      assert front <= front + last;
      EntriesBack(es[..n], s);
      EntryBack(es[n]);
      LastEntry(es, s, n);
    }
  }

  // ----- the inode -----

  /** The fields of the structure, with the octets of the union. */
  datatype Inode64 = Inode64(mode: nat, size: nat, atime: nat, mtime: nat, ctime: nat, info: seq<octet>, next: nat)

  predicate InodeFits(n: Inode64) {
    && n.mode < 128 && n.size < TWO64 && n.atime < TWO64 && n.mtime < TWO64 && n.ctime < TWO64
    && |n.info| == ENTRY_SIZE * ENTRIES && n.next < TWO64
  }

  function Header(n: Inode64): (s: seq<octet>)
    requires InodeFits(n)
    ensures |s| == UNION_AT
  {
    [n.mode] + Nuls(7) + Le(n.size, 8) + Le(n.atime, 8) + Le(n.mtime, 8) + Le(n.ctime, 8)
  }

  function Octets(n: Inode64): (s: seq<octet>)
    requires InodeFits(n)
    ensures |s| == BSIZE
  {
    Header(n) + n.info + Le(n.next, 8) + Nuls(BSIZE - INODE_SIZE)
  }

  function Read(s: seq<octet>): Inode64
    requires |s| == BSIZE
  {
    Inode64(s[0], Field(s, SIZE_AT), Field(s, ATIME_AT), Field(s, MTIME_AT), Field(s, CTIME_AT),
            s[UNION_AT..NEXT_AT], Field(s, NEXT_AT))
  }

  lemma HeaderParts(n: Inode64)
    requires InodeFits(n)
    ensures var s := Header(n);
      && s[0] == n.mode && s[SIZE_AT..SIZE_AT + 8] == Le(n.size, 8) && s[ATIME_AT..ATIME_AT + 8] == Le(n.atime, 8)
      && s[MTIME_AT..MTIME_AT + 8] == Le(n.mtime, 8) && s[CTIME_AT..CTIME_AT + 8] == Le(n.ctime, 8)
  {
    var b := [n.mode] + Nuls(7) + Le(n.size, 8);
    var c := b + Le(n.atime, 8);
    var d := c + Le(n.mtime, 8);
    assert b[SIZE_AT..] == Le(n.size, 8);
    Appended(b, Le(n.atime, 8), SIZE_AT);
    Appended(c, Le(n.mtime, 8), SIZE_AT);
    Appended(c, Le(n.mtime, 8), ATIME_AT);
    Appended(d, Le(n.ctime, 8), SIZE_AT);
    Appended(d, Le(n.ctime, 8), ATIME_AT);
    Appended(d, Le(n.ctime, 8), MTIME_AT);
  }

  lemma Appended(u: seq<octet>, f: seq<octet>, at: nat)
    requires at + 8 <= |u|
    ensures (u + f)[at..at + 8] == u[at..at + 8] && (u + f)[|u|..|u| + |f|] == f && (u + f)[0] == u[0]
  {
  }

  lemma Parts(n: Inode64)
    requires InodeFits(n)
    ensures var s := Octets(n);
      && s[..UNION_AT] == Header(n) && s[UNION_AT..NEXT_AT] == n.info && s[NEXT_AT..NEXT_AT + 8] == Le(n.next, 8)
  {
  }

  /** Where the fields are. */
  lemma Offsets(n: Inode64)
    requires InodeFits(n)
    ensures var s := Octets(n);
      && |s| == 512 && s[0] == n.mode
      && s[8..16] == Le(n.size, 8) && s[16..24] == Le(n.atime, 8) && s[24..32] == Le(n.mtime, 8) && s[32..40] == Le(n.ctime, 8)
      && s[40..400] == n.info && s[400..408] == Le(n.next, 8)
  {
    var s := Octets(n);
    Parts(n);
    HeaderParts(n);
    assert s[0] == s[..UNION_AT][0];
    FieldOf(s, 8, Header(n));
    FieldOf(s, 16, Header(n));
    FieldOf(s, 24, Header(n));
    FieldOf(s, 32, Header(n));
  }

  lemma FieldOf(s: seq<octet>, at: nat, head: seq<octet>)
    requires |s| >= UNION_AT && s[..UNION_AT] == head && at + 8 <= UNION_AT
    ensures s[at..at + 8] == head[at..at + 8]
  {
  }

  /** Reading the octets of an inode gives its fields back. */
  lemma InodeBack(n: Inode64)
    requires InodeFits(n)
    ensures Read(Octets(n)) == n
  {
    var s := Octets(n);
    Parts(n);
    HeaderParts(n);
    assert s[0] == s[..UNION_AT][0];
    FieldOf(s, SIZE_AT, Header(n));
    FieldOf(s, ATIME_AT, Header(n));
    FieldOf(s, MTIME_AT, Header(n));
    FieldOf(s, CTIME_AT, Header(n));
    EightBack(n.size);
    EightBack(n.atime);
    EightBack(n.mtime);
    EightBack(n.ctime);
    EightBack(n.next);
  }

  // ----- files -----

  predicate FileFits(n: FileInode) {
    && n.mode < 128 && n.size < TWO64 && n.atime < TWO64 && n.mtime < TWO64 && n.ctime < TWO64 && n.next < TWO64
    && |n.slots| == DIRECT && forall i :: 0 <= i < DIRECT ==> n.slots[i] < TWO64
  }

  function AsInode(n: FileInode): (r: Inode64)
    requires FileFits(n)
    ensures InodeFits(r)
  {
    Inode64(n.mode, n.size, n.atime, n.mtime, n.ctime, SlotOctets(n.slots) + Nuls(ENTRY_SIZE * ENTRIES - 8 * DIRECT), n.next)
  }

  function SlotsAt(info: seq<octet>, n: nat): (slots: seq<Inum>)
    requires 8 * n <= |info|
    ensures |slots| == n
  {
    if n == 0 then [] else SlotsAt(info, n - 1) + [UnLe(info[8 * (n - 1)..8 * n])]
  }

  /** A block read as a file inode. */
  function ReadFile(s: seq<octet>): FileInode
    requires |s| == BSIZE
  {
    var n := Read(s);
    FileInode(n.mode, n.size, n.atime, n.mtime, n.ctime, SlotsAt(n.info, DIRECT), n.next)
  }

  lemma SameSlice(a: seq<octet>, b: seq<octet>, i: nat, j: nat)
    requires a <= b && i <= j <= |a|
    ensures b[i..j] == a[i..j]
  {
  }

  lemma SlotRead(slots: seq<Inum>, info: seq<octet>, i: nat)
    requires i < |slots| && SlotOctets(slots) <= info && slots[i] < TWO64
    ensures UnLe(info[8 * i..8 * (i + 1)]) == slots[i]
  {
    SlotBack(slots, i);
    SameSlice(SlotOctets(slots), info, 8 * i, 8 * i + 8);
    EightBack(slots[i]);
  }

  lemma {:induction false} SlotsBack(slots: seq<Inum>, info: seq<octet>, n: nat)
    requires n <= |slots| && SlotOctets(slots) <= info && forall i :: 0 <= i < |slots| ==> slots[i] < TWO64
    ensures SlotsAt(info, n) == slots[..n]
  {
    if n > 0 {
      SlotsBack(slots, info, n - 1);
      SlotRead(slots, info, n - 1);
      assert slots[..n] == slots[..n - 1] + [slots[n - 1]];
    }
  }

  /** A file inode stored in a block is read back as it was. */
  lemma FileBack(n: FileInode)
    requires FileFits(n)
    ensures ReadFile(Octets(AsInode(n))) == n
  {
    InodeBack(AsInode(n));
    SlotsBack(n.slots, AsInode(n).info, DIRECT);
    assert n.slots[..DIRECT] == n.slots;
  }

  // ----- directories -----

  predicate DirFits(n: DirInode) {
    && n.mode < 128 && n.atime < TWO64 && n.mtime < TWO64 && n.ctime < TWO64 && n.next < TWO64
    && |n.entries| <= ENTRIES && EntriesOk(n.entries)
  }

  function DirAsInode(n: DirInode): (r: Inode64)
    requires DirFits(n)
    ensures InodeFits(r)
  {
    Inode64(n.mode, |n.entries|, n.atime, n.mtime, n.ctime,
            EntriesOctets(n.entries) + Nuls(ENTRY_SIZE * (ENTRIES - |n.entries|)), n.next)
  }

  /** A block read as a directory inode: the size counts the entries in use. */
  function ReadDir(s: seq<octet>): DirInode
    requires |s| == BSIZE && Read(s).size <= ENTRIES
  {
    var n := Read(s);
    DirInode(n.mode, n.atime, n.mtime, n.ctime, EntriesAt(n.info, n.size), n.next)
  }

  /** A directory inode stored in a block is read back as it was. */
  lemma DirBack(n: DirInode)
    requires DirFits(n)
    ensures Read(Octets(DirAsInode(n))).size <= ENTRIES && ReadDir(Octets(DirAsInode(n))) == n
  {
    InodeBack(DirAsInode(n));
    EntriesBack(n.entries, DirAsInode(n).info);
  }

  lemma InnerSlice(s: seq<octet>, at: nat, end: nat, i: nat, j: nat)
    requires at <= end <= |s| && i <= j <= end - at
    ensures s[at..end][i..j] == s[at + i..at + j]
  {
    assert forall k :: 0 <= k < j - i ==> s[at..end][i..j][k] == s[at + i..at + j][k];
  }

  /** Block pointer i of a file inode is at 40 + 8 i, the pointer to the next inode at 400. */
  lemma SlotOffset(n: FileInode, i: nat)
    requires FileFits(n) && i < 16
    ensures Octets(AsInode(n))[40 + 8 * i..48 + 8 * i] == Le(n.slots[i], 8)
    ensures Octets(AsInode(n))[400..408] == Le(n.next, 8) && Octets(AsInode(n))[8..16] == Le(n.size, 8)
  {
    var s, info := Octets(AsInode(n)), AsInode(n).info;
    Offsets(AsInode(n));
    SlotBack(n.slots, i);
    SameSlice(SlotOctets(n.slots), info, 8 * i, 8 * i + 8);
    InnerSlice(s, 40, 400, 8 * i, 8 * i + 8);
  }

  lemma {:induction false} EntryPlace(es: seq<Entry>, i: nat)
    requires EntriesOk(es) && i < |es|
    ensures EntriesOctets(es)[72 * i..72 * i + 72] == EntryOctets(es[i])
  {
    var n := |es| - 1;
    var front := EntriesOctets(es[..n]);
    if i < n {
      EntryPlace(es[..n], i);
      assert EntriesOctets(es)[72 * i..72 * i + 72] == front[72 * i..72 * i + 72];
    } else {
      assert EntriesOctets(es)[72 * i..72 * i + 72] == EntryOctets(es[i]);
    }
  }

  /** Entry i of a directory inode is at 40 + 72 i: its name, then its inum. */
  lemma EntryOffset(n: DirInode, i: nat)
    requires DirFits(n) && i < |n.entries|
    ensures Octets(DirAsInode(n))[40 + 72 * i..112 + 72 * i] == NameOctets(n.entries[i].name) + Le(n.entries[i].inum, 8)
    ensures Octets(DirAsInode(n))[8..16] == Le(|n.entries|, 8)
  {
    var s, info := Octets(DirAsInode(n)), DirAsInode(n).info;
    Offsets(DirAsInode(n));
    EntryPlace(n.entries, i);
    SameSlice(EntriesOctets(n.entries), info, 72 * i, 72 * i + 72);
    InnerSlice(s, 40, 400, 72 * i, 72 * i + 72);
  }

  // ----- a block of zeros -----

  lemma ZeroWord(s: seq<octet>)
    requires |s| == 8 && forall i :: 0 <= i < 8 ==> s[i] == 0
    ensures UnLe(s) == 0
  {
    LeZero(8);
    EightBack(0);
    assert s == Nuls(8);
  }

  predicate AllZero(s: seq<octet>) {
    forall i :: 0 <= i < |s| ==> s[i] == 0
  }

  lemma ZeroField(s: seq<octet>, at: nat)
    requires AllZero(s) && at + 8 <= |s|
    ensures Field(s, at) == 0
  {
    ZeroWord(s[at..at + 8]);
  }

  lemma {:induction false} ZeroSlots(info: seq<octet>, n: nat)
    requires 8 * n <= |info| && AllZero(info)
    ensures forall i :: 0 <= i < n ==> SlotsAt(info, n)[i] == 0
  {
    if n > 0 {
      ZeroSlots(info, n - 1);
      ZeroWord(info[8 * (n - 1)..8 * n]);
    }
  }

  lemma ZeroInode(s: seq<octet>)
    requires |s| == BSIZE && AllZero(s)
    ensures var n := Read(s);
      && n.mode == 0 && n.size == 0 && n.atime == 0 && n.mtime == 0 && n.ctime == 0 && n.next == 0
      && AllZero(n.info)
  {
    ZeroField(s, SIZE_AT);
    ZeroField(s, ATIME_AT);
    ZeroField(s, MTIME_AT);
    ZeroField(s, CTIME_AT);
    ZeroField(s, NEXT_AT);
  }

  /** A block of zeros reads as an empty inode of either kind. */
  lemma ZeroBlock(s: seq<octet>)
    requires |s| == BSIZE && AllZero(s)
    ensures ReadFile(s) == BLANK_FILE && Read(s).size <= ENTRIES && ReadDir(s) == BLANK_DIR
  {
    ZeroInode(s);
    NoSlots(Read(s).info);
  }

  lemma NoSlots(info: seq<octet>)
    requires 8 * DIRECT <= |info| && AllZero(info)
    ensures SlotsAt(info, DIRECT) == NO_SLOTS
  {
    ZeroSlots(info, DIRECT);
    var slots := SlotsAt(info, DIRECT);
    assert slots == NO_SLOTS;
  }
}
