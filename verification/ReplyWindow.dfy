/** The server's at-most-once bookkeeping: for each client a watermark and the
    requests above it, with their replies once they have one. */
module ReplyWindow {
  import opened Prelude

  type Xid = nat
  type Nonce = nat
  type Value = nat

  /** What one client's window means: the xids above the watermark that have been
      seen, and the reply of each that is finished. */
  datatype Window = Window(watermark: Xid, replies: map<Xid, Option<Value>>)

  const EMPTY := Window(0, map[])

  datatype State = New | InProgress | Done(value: Value) | Forgotten

  predicate Valid(w: Window) {
    forall x :: x in w.replies ==> x > w.watermark
  }

  function Advance(w: Window, rep: Xid): (v: Window)
    ensures Valid(w) ==> Valid(v)
    ensures v.watermark >= w.watermark && v.watermark >= rep
  {
    if rep > w.watermark then Window(rep, map x | x in w.replies && x > rep :: w.replies[x]) else w
  }

  function Check(w: Window, xid: Xid, rep: Xid): (r: (Window, State)) {
    var v := Advance(w, rep);
    if xid <= v.watermark then (v, Forgotten)
    else if xid in v.replies then
      (v, if v.replies[xid].Some? then Done(v.replies[xid].value) else InProgress)
    else (v.(replies := v.replies[xid := None]), New)
  }

  function AddReply(w: Window, xid: Xid, value: Value): Window {
    if xid in w.replies then w.(replies := w.replies[xid := Some(value)]) else w
  }

  // ----- the lists of the source -----

  datatype Entry = Entry(xid: Xid, present: bool, buf: Value)

  ghost predicate Distinct(list: seq<Entry>) {
    forall i, j :: 0 <= i < j < |list| ==> list[i].xid != list[j].xid
  }

  function ReplyOf(e: Entry): Option<Value> {
    if e.present then Some(e.buf) else None
  }

  /** `list` with watermark `m` means `w`; entries at or below the watermark may
      still sit in the list and mean nothing. */
  ghost predicate Means(list: seq<Entry>, m: Xid, w: Window) {
    && Distinct(list)
    && w.watermark == m
    && (forall i :: 0 <= i < |list| && list[i].xid > m ==>
          list[i].xid in w.replies && w.replies[list[i].xid] == ReplyOf(list[i]))
    && (forall x :: x in w.replies ==> x > m && exists i :: 0 <= i < |list| && list[i].xid == x)
  }

  lemma Raised(list: seq<Entry>, m: Xid, w: Window, rep: Xid)
    requires Means(list, m, w)
    ensures Means(list, if rep > m then rep else m, Advance(w, rep))
  {
  }

  lemma Erased(list: seq<Entry>, i: nat, m: Xid, w: Window)
    requires Means(list, m, w) && i < |list| && list[i].xid <= m
    ensures Means(list[..i] + list[i + 1..], m, w)
  {
    var rest := list[..i] + list[i + 1..];
    forall x | x in w.replies ensures exists k :: 0 <= k < |rest| && rest[k].xid == x {
      var j :| 0 <= j < |list| && list[j].xid == x;
      assert rest[if j < i then j else j - 1] == list[j];
    }
  }

  lemma Pushed(list: seq<Entry>, m: Xid, w: Window, xid: Xid)
    requires Means(list, m, w) && xid > m
    requires forall i :: 0 <= i < |list| ==> list[i].xid != xid
    ensures Means(list + [Entry(xid, false, 0)], m, w.(replies := w.replies[xid := None]))
  {
    var more := list + [Entry(xid, false, 0)];
    assert more[|list|].xid == xid;
    forall x | x in w.replies ensures exists k :: 0 <= k < |more| && more[k].xid == x {
      var j :| 0 <= j < |list| && list[j].xid == x;
      assert more[j] == list[j];
    }
  }

  lemma Filled(list: seq<Entry>, i: nat, m: Xid, w: Window, value: Value)
    requires Means(list, m, w) && i < |list|
    ensures Means(list[i := Entry(list[i].xid, true, value)], m, AddReply(w, list[i].xid, value))
  {
    var full := list[i := Entry(list[i].xid, true, value)];
    forall x | x in w.replies ensures exists k :: 0 <= k < |full| && full[k].xid == x {
      var j :| 0 <= j < |list| && list[j].xid == x;
      assert full[j].xid == x;
    }
  }

  /** The loop over the replies: drops what is at or below the watermark until it
      meets `xid`, and says where it stopped. */
  method Scan(replies: seq<Entry>, xid: Xid, mark: Xid, ghost w: Window) returns (list: seq<Entry>, it: nat)
    requires Means(replies, mark, w) && xid > mark
    ensures Means(list, mark, w) && it <= |list|
    ensures it < |list| ==> list[it].xid == xid
    ensures it == |list| ==> forall i :: 0 <= i < |list| ==> mark < list[i].xid != xid
    ensures xid in w.replies <==> it < |list|
  {
    list, it := replies, 0;
    while it < |list|
      invariant 0 <= it <= |list|
      invariant Means(list, mark, w)
      invariant forall i :: 0 <= i < it ==> mark < list[i].xid != xid
      decreases |list| - it
    {
      if list[it].xid <= mark {
        Erased(list, it, mark, w);
        list := list[..it] + list[it + 1..];
        continue;
      }
      if list[it].xid == xid {
        return;
      }
      it := it + 1;
    }
  }

  /** checkduplicate_and_update on one client's list and watermark. */
  method CheckList(replies: seq<Entry>, xidRepWindow: Xid, xid: Xid, xidRep: Xid, ghost before: Window)
    returns (list: seq<Entry>, mark: Xid, state: State, ghost w: Window)
    requires Means(replies, xidRepWindow, before)
    ensures Means(list, mark, w)
    ensures (w, state) == Check(before, xid, xidRep)
  {
    Raised(replies, xidRepWindow, before, xidRep);
    list, mark, w := replies, xidRepWindow, Advance(before, xidRep);
    if xidRep > mark {
      mark := xidRep;
    }
    if xid <= mark {
      return list, mark, Forgotten, w;
    }
    var it;
    list, it := Scan(list, xid, mark, w);
    if it < |list| {
      return list, mark, if list[it].present then Done(list[it].buf) else InProgress, w;
    }
    Pushed(list, mark, w, xid);
    return list + [Entry(xid, false, 0)], mark, New, w.(replies := w.replies[xid := None]);
  }

  class Server {
    const nonce: Nonce
    var replyWindow: map<Nonce, seq<Entry>>
    var xidRepWindow: map<Nonce, Xid>
    ghost var view: map<Nonce, Window>

    function ListOf(clt: Nonce): seq<Entry>
      reads this
    {
      if clt in replyWindow then replyWindow[clt] else []
    }

    function MarkOf(clt: Nonce): Xid
      reads this
    {
      if clt in xidRepWindow then xidRepWindow[clt] else 0
    }

    ghost function View(clt: Nonce): Window
      reads this
    {
      if clt in view then view[clt] else EMPTY
    }

    ghost predicate Valid()
      reads this
    {
      forall clt :: Means(ListOf(clt), MarkOf(clt), View(clt))
    }

    constructor (nonce: Nonce)
      ensures Valid() && this.nonce == nonce
      ensures forall clt :: View(clt) == EMPTY
    {
      this.nonce := nonce;
      replyWindow, xidRepWindow, view := map[], map[], map[];
    }

    /** Replaces what is kept for one client. */
    method Install(clt: Nonce, list: seq<Entry>, mark: Xid, ghost w: Window)
      requires Valid() && Means(list, mark, w)
      modifies this
      ensures Valid() && View(clt) == w
      ensures forall other :: other != clt ==> View(other) == old(View(other))
    {
      replyWindow := replyWindow[clt := list];
      xidRepWindow := xidRepWindow[clt := mark];
      view := view[clt := w];
      assert forall other :: other != clt ==>
        View(other) == old(View(other)) && ListOf(other) == old(ListOf(other)) && MarkOf(other) == old(MarkOf(other));
    }

    method CheckDuplicateAndUpdate(clt: Nonce, xid: Xid, xidRep: Xid) returns (state: State)
      requires Valid()
      modifies this
      ensures Valid()
      ensures (View(clt), state) == Check(old(View(clt)), xid, xidRep)
      ensures forall other :: other != clt ==> View(other) == old(View(other))
    {
      var list, mark;
      ghost var w;
      list, mark, state, w := CheckList(ListOf(clt), MarkOf(clt), xid, xidRep, View(clt));
      Install(clt, list, mark, w);
    }

    method AddReplyTo(clt: Nonce, xid: Xid, b: Value)
      requires Valid()
      modifies this
      ensures Valid()
      ensures View(clt) == AddReply(old(View(clt)), xid, b)
      ensures forall other :: other != clt ==> View(other) == old(View(other))
    {
      var list := ListOf(clt);
      var it := 0;
      while it < |list|
        invariant 0 <= it <= |list|
        invariant forall i :: 0 <= i < it ==> list[i].xid != xid
      {
        if list[it].xid == xid {
          Filled(list, it, MarkOf(clt), View(clt), b);
          view := view[clt := AddReply(View(clt), xid, b)];
          replyWindow := replyWindow[clt := list[it := Entry(xid, true, b)]];
          assert Means(ListOf(clt), MarkOf(clt), View(clt));
          assert forall other :: other != clt ==>
            View(other) == old(View(other)) && ListOf(other) == old(ListOf(other)) && MarkOf(other) == old(MarkOf(other));
          return;
        }
        it := it + 1;
      }
    }
  }
}
