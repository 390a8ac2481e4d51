/** The client's record of which replies it has: `xid_rep_window_`, an ascending
    list whose front stands for every xid up to it. */
module AckWindow {

  /** All of 1..n are in `reported`. */
  ghost predicate AllUpTo(reported: set<nat>, n: nat) {
    forall x :: 1 <= x <= n ==> x in reported
  }

  function Above(reported: set<nat>, n: nat): set<nat> {
    set x | x in reported && x > n
  }

  function FrontFrom(reported: set<nat>, n: nat): (f: nat)
    ensures f >= n && f + 1 !in reported
    ensures forall x :: n < x <= f ==> x in reported
    decreases |Above(reported, n)|
  {
    if n + 1 in reported then
      assert Above(reported, n) == Above(reported, n + 1) + {n + 1};
      FrontFrom(reported, n + 1)
    else n
  }

  /** The largest n with 1..n all reported: what the client tells the server. */
  function Front(reported: set<nat>): (f: nat)
    ensures AllUpTo(reported, f) && f + 1 !in reported
  {
    FrontFrom(reported, 0)
  }

  lemma FrontIsLargest(reported: set<nat>, n: nat)
    ensures AllUpTo(reported, n) <==> n <= Front(reported)
  {
    var next := Front(reported) + 1;
    assert next !in reported;
  }

  lemma FrontGrows(before: set<nat>, after: set<nat>)
    requires before <= after
    ensures Front(before) <= Front(after)
  {
    assert AllUpTo(before, Front(before));
    assert AllUpTo(after, Front(before));
    FrontIsLargest(after, Front(before));
  }

  ghost predicate Ascending(w: seq<nat>) {
    forall i, j :: 0 <= i <= j < |w| ==> w[i] <= w[j]
  }

  /** The list stands for exactly the reported xids. */
  ghost predicate Stands(w: seq<nat>, reported: set<nat>) {
    && |w| > 0 && Ascending(w)
    && (forall x | x > 0 :: x in reported <==> x <= w[0] || x in w)
  }

  ghost predicate Represents(w: seq<nat>, reported: set<nat>) {
    Stands(w, reported) && w[0] + 1 !in w
  }

  lemma FrontOfList(w: seq<nat>, reported: set<nat>)
    requires Represents(w, reported)
    ensures w[0] == Front(reported)
  {
    assert AllUpTo(reported, w[0]);
    FrontIsLargest(reported, w[0]);
    FrontIsLargest(reported, w[0] + 1);
    assert w[0] + 1 !in reported;
  }

  lemma Inserted(w: seq<nat>, k: nat, xid: nat, reported: set<nat>)
    requires Stands(w, reported) && w[0] < xid && 0 < k <= |w|
    requires forall i :: 0 <= i < k ==> w[i] <= xid
    requires forall i :: k <= i < |w| ==> xid < w[i]
    ensures Stands(w[..k] + [xid] + w[k..], reported + {xid})
  {
    var v := w[..k] + [xid] + w[k..];
    forall i, j | 0 <= i <= j < |v| ensures v[i] <= v[j] {
    }
    forall x | x > 0 ensures x in reported + {xid} <==> x <= v[0] || x in v {
      assert w == w[..k] + w[k..];
    }
  }

  /** Popping the front when the next number is in the list. */
  lemma Popped(w: seq<nat>, it: nat, reported: set<nat>)
    requires Stands(w, reported) && 0 < it < |w| && w[0] + 1 == w[it]
    ensures Stands(w[1..], reported)
    ensures w[1] == w[0] || w[1] == w[0] + 1
  {
    forall x | x > 0 ensures x in reported <==> x <= w[1..][0] || x in w[1..] {
      assert w == [w[0]] + w[1..];
      if x == w[0] + 1 {
        assert w[it] == w[1..][it - 1];
      }
    }
  }

  class Window {
    var window: seq<nat>
    ghost var reported: set<nat>

    ghost predicate Valid()
      reads this
    {
      Represents(window, reported)
    }

    constructor ()
      ensures Valid() && reported == {} && window == [0]
    {
      window := [0];
      reported := {};
    }

    /** What goes into the header of the next request. */
    method Acked() returns (rep: nat)
      requires Valid()
      ensures rep == Front(reported)
    {
      FrontOfList(window, reported);
      rep := window[0];
    }

    /** Any order, repeats included. */
    method UpdateXidRep(xid: nat)
      requires Valid()
      modifies this
      ensures Valid()
      ensures reported == old(reported) + {xid}
    {
      ghost var before := reported;
      reported := reported + {xid};
      if xid <= window[0] {
        return;
      }
      Insert(xid, before);
      Compress();
    }

    method Insert(xid: nat, ghost before: set<nat>)
      requires Represents(window, before) && reported == before + {xid}
      requires window[0] < xid
      modifies `window
      ensures Stands(window, reported) && |window| > 1
    {
      var it := 0;
      while it < |window| && window[it] <= xid
        invariant 0 <= it <= |window|
        invariant forall i :: 0 <= i < it ==> window[i] <= xid
      {
        it := it + 1;
      }
      Inserted(window, it, xid, before);
      window := window[..it] + [xid] + window[it..];
    }

    /** The in-place compress loop. `it` is the position the iterator points at;
        popping the front moves it down by one and never pops it. */
    method Compress()
      requires Stands(window, reported) && |window| > 1
      modifies `window
      ensures Represents(window, reported)
    {
      var it := 1;
      while it < |window|
        invariant 0 < it <= |window|
        invariant Stands(window, reported)
        invariant window[0] + 1 !in window[..it]
        decreases |window| - it
      {
        ghost var left := |window| - it;
        while window[0] + 1 == window[it]
          invariant 0 <= it < |window|
          invariant Stands(window, reported)
          invariant window[0] <= window[it]
          invariant |window| - it == left
          invariant window[0] + 1 !in window[..it]
          decreases it
        {
          assert it > 0;
          Popped(window, it, reported);
          window := window[1..];
          it := it - 1;
        }
        assert window[0] + 1 !in window[..it + 1];
        it := it + 1;
      }
      assert window[..it] == window;
    }
  }
}
