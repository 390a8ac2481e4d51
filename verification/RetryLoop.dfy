/** Times as seconds and nanoseconds, and the wait loop of `call1`: the first wait
    is one second, each later one twice as long, none past the final deadline. */
module RetryLoop {
  const SECOND := 1_000_000_000
  const MILLI := 1_000_000
  const TO_MIN := 1000
  const INT_MAX := 0x7fff_ffff

  datatype Timespec = Timespec(sec: nat, nsec: nat)

  function Nanos(t: Timespec): nat {
    t.sec * SECOND + t.nsec
  }

  /** What the clock reads. */
  predicate Reading(t: Timespec) {
    t.nsec < SECOND
  }

  /** What `add_timespec` returns: its loop stops at one full second, so a sum may
      keep all of SECOND in the nanoseconds. */
  predicate Normal(t: Timespec) {
    t.nsec <= SECOND
  }

  function Add(a: Timespec, ms: nat): Timespec {
    var n := a.nsec + (ms % 1000) * MILLI;
    if n > SECOND then Timespec(a.sec + ms / 1000 + 1, n - SECOND) else Timespec(a.sec + ms / 1000, n)
  }

  /** A full second of nanoseconds is left as it is. */
  lemma FullSecondStays(sec: nat, ms: nat)
    requires ms < 1000
    ensures Add(Timespec(sec, 1_000_000_000 - ms * 1_000_000), ms) == Timespec(sec, 1_000_000_000)
    ensures Add(Timespec(sec, 1_000_000_001 - ms * 1_000_000), ms) == Timespec(sec + 1, 1)
  {
  }

  method AddTimespec(a: Timespec, b: nat) returns (result: Timespec)
    requires Reading(a)
    ensures result == Add(a, b)
  {
    var sec: nat, nsec: nat := a.sec + b / 1000, a.nsec + (b % 1000) * MILLI;
    while nsec > SECOND
      invariant nsec < 2 * SECOND
      invariant nsec <= SECOND ==> Timespec(sec, nsec) == Add(a, b)
      invariant nsec > SECOND ==> sec == a.sec + b / 1000 && nsec == a.nsec + (b % 1000) * MILLI
    {
      sec, nsec := sec + 1, nsec - SECOND;
    }
    result := Timespec(sec, nsec);
  }

  lemma AddIsSum(a: Timespec, ms: nat)
    requires Reading(a)
    ensures Normal(Add(a, ms)) && Nanos(Add(a, ms)) == Nanos(a) + ms * MILLI
  {
    assert ms == (ms / 1000) * 1000 + ms % 1000;
  }

  function Cmp(a: Timespec, b: Timespec): int {
    if a.sec > b.sec then 1 else if a.sec < b.sec then -1
    else if a.nsec > b.nsec then 1 else if a.nsec < b.nsec then -1 else 0
  }

  /** On sums, the comparison is right up to the two spellings of a full second. */
  lemma CmpOrders(a: Timespec, b: Timespec)
    requires Normal(a) && Normal(b)
    ensures Cmp(a, b) > 0 ==> Nanos(a) >= Nanos(b)
    ensures Cmp(a, b) <= 0 ==> Nanos(a) <= Nanos(b)
    ensures (Cmp(a, b) > 0 <==> Nanos(a) > Nanos(b)) <==> !(Nanos(a) == Nanos(b) && a.sec > b.sec)
  {
  }

  function Pow2(k: nat): (p: nat)
    ensures p > k
  {
    if k == 0 then 1 else 2 * Pow2(k - 1)
  }

  /** The length of wait k in milliseconds. */
  function Wait(k: nat): nat {
    TO_MIN * Pow2(k)
  }

  function Final(to: nat, clock: nat -> Timespec): Timespec {
    Add(clock(0), to)
  }

  /** Is wait k cut short by the final deadline? */
  predicate Clipped(to: nat, clock: nat -> Timespec, k: nat) {
    Cmp(Add(clock(k + 1), Wait(k)), Final(to, clock)) > 0
  }

  function Deadline(to: nat, clock: nat -> Timespec, k: nat): Timespec {
    if Clipped(to, clock, k) then Final(to, clock) else Add(clock(k + 1), Wait(k))
  }

  /** A clock that never goes back; a wait that ends without a reply ends no
      earlier than its deadline. */
  ghost predicate Fair(to: nat, clock: nat -> Timespec, reply: nat -> bool) {
    && (forall i: nat :: Reading(clock(i)))
    && (forall i: nat, j: nat :: i <= j ==> Nanos(clock(i)) <= Nanos(clock(j)))
    && (forall k: nat :: !reply(k) ==> Nanos(clock(k + 2)) >= Nanos(Deadline(to, clock, k)))
  }

  /** Milliseconds of all waits before wait k. */
  function Waited(k: nat): nat {
    TO_MIN * (Pow2(k) - 1)
  }

  lemma WaitEnds(to: nat, clock: nat -> Timespec, reply: nat -> bool, k: nat)
    requires Fair(to, clock, reply) && !reply(k) && !Clipped(to, clock, k)
    requires Nanos(clock(k + 1)) >= Nanos(clock(0)) + Waited(k) * MILLI
    ensures Nanos(clock(k + 2)) >= Nanos(clock(0)) + Waited(k + 1) * MILLI
    ensures Waited(k + 1) <= to
  {
    var c := clock(k + 1);
    assert Reading(c) && Reading(clock(0));
    AddIsSum(c, Wait(k));
    AddIsSum(clock(0), to);
    CmpOrders(Add(c, Wait(k)), Final(to, clock));
    assert Waited(k + 1) == Waited(k) + Wait(k);
  }

  lemma DeadlineInTime(to: nat, clock: nat -> Timespec, k: nat)
    requires forall i: nat :: Reading(clock(i))
    ensures Nanos(Deadline(to, clock, k)) <= Nanos(clock(0)) + to * MILLI
  {
    AddIsSum(clock(k + 1), Wait(k));
    AddIsSum(clock(0), to);
    CmpOrders(Add(clock(k + 1), Wait(k)), Final(to, clock));
  }

  /** A timeout that fits an int never makes a wait that does not. */
  lemma WaitFits(to: nat, k: nat)
    requires to <= INT_MAX && Waited(k) <= to
    ensures Wait(k) <= INT_MAX
  {
    assert Pow2(5) == 0x20 && Pow2(10) == 0x400 && Pow2(15) == 0x8000 && Pow2(20) == 0x10_0000;
    if k <= 21 {
      PowGrows(k, 21);
    } else {
      PowGrows(22, k);
    }
  }

  lemma {:induction false} PowGrows(i: nat, j: nat)
    requires i <= j
    ensures Pow2(i) <= Pow2(j)
    decreases j - i
  {
    if i < j {
      PowGrows(i + 1, j);
    }
  }

  /** The first k waits were full ones and all expired: together they took at least
      1000 (2^k - 1) ms, and that is within the timeout. */
  ghost predicate Expired(to: nat, clock: nat -> Timespec, reply: nat -> bool, k: nat) {
    && (forall i :: 0 <= i < k ==> !reply(i) && !Clipped(to, clock, i))
    && Waited(k) <= to
    && Nanos(clock(k + 1)) >= Nanos(clock(0)) + Waited(k) * MILLI
  }

  /** Where the loop stands after `waits` expired waits: still counting down the
      full ones, or past the clipped last one. */
  ghost predicate Standing(to: nat, clock: nat -> Timespec, reply: nat -> bool, waits: nat, clipped: bool) {
    if !clipped then Expired(to, clock, reply, waits) && waits <= to
    else waits > 0 && Expired(to, clock, reply, waits - 1)
         && Nanos(clock(waits + 1)) >= Nanos(clock(0)) + to * MILLI
  }

  lemma OneMore(to: nat, clock: nat -> Timespec, reply: nat -> bool, k: nat)
    requires Fair(to, clock, reply) && Standing(to, clock, reply, k, false) && !reply(k)
    ensures Standing(to, clock, reply, k + 1, Clipped(to, clock, k))
    ensures Wait(k + 1) == 2 * Wait(k)
  {
    if Clipped(to, clock, k) {
      AddIsSum(clock(0), to);
    } else {
      WaitEnds(to, clock, reply, k);
    }
  }

  /** One round up to the wait: the next deadline, cut at the final one. */
  method NextDeadline(to: nat, clock: nat -> Timespec, k: nat, curr: nat, final: Timespec)
    returns (next: Timespec, left: Timespec)
    requires Reading(clock(k + 1)) && curr == Wait(k) && final == Final(to, clock)
    ensures next == Deadline(to, clock, k)
    ensures left == if Clipped(to, clock, k) then Timespec(0, final.nsec) else final
  {
    next := AddTimespec(clock(k + 1), curr);
    left := final;
    if Cmp(next, final) > 0 {
      next := final;
      left := Timespec(0, final.nsec);
    }
  }

  /** The request goes out in the first round, and again in a round after a wait that
      found the connection broken. */
  predicate Transmits(broken: set<nat>, k: nat) {
    k == 0 || k - 1 in broken
  }

  /** The rounds below n in which it does. */
  function Sends(broken: set<nat>, n: nat): seq<nat> {
    if n == 0 then [] else Sends(broken, n - 1) + if Transmits(broken, n - 1) then [n - 1] else []
  }

  lemma {:induction false} SendsAre(broken: set<nat>, n: nat)
    ensures forall k: nat :: k in Sends(broken, n) <==> k < n && Transmits(broken, k)
    ensures forall i, j :: 0 <= i < j < |Sends(broken, n)| ==> Sends(broken, n)[i] < Sends(broken, n)[j]
  {
    if n > 0 {
      SendsAre(broken, n - 1);
      var before := Sends(broken, n - 1);
      assert forall i :: 0 <= i < |before| ==> before[i] in before;
    }
  }

  /** One round: the wait, and the next one twice as long if it expired. */
  method OneRound(to: nat, clock: nat -> Timespec, reply: nat -> bool, k: nat, curr: nat, final: Timespec)
    returns (done: bool, curr': nat, final': Timespec, k': nat, ghost clipped: bool)
    requires Fair(to, clock, reply) && Round(to, clock, reply, k, false, curr, final) && final.sec != 0
    ensures done <==> reply(k)
    ensures Expired(to, clock, reply, k)
    ensures k' == k + 1 && (!done ==> Round(to, clock, reply, k', clipped, curr', final') && (!clipped ==> k' <= to))
  {
    var next;
    next, final' := NextDeadline(to, clock, k, curr, final);
    done, curr', k', clipped := reply(k), 2 * curr, k + 1, Clipped(to, clock, k);
    if !done {
      RoundOn(to, clock, reply, k, curr);
    }
  }

  lemma RoundsOver(to: nat, clock: nat -> Timespec, reply: nat -> bool, waits: nat, clipped: bool, curr: nat, final: Timespec)
    requires Round(to, clock, reply, waits, clipped, curr, final) && final.sec == 0
    ensures waits == 0 ==> Final(to, clock).sec == 0
    ensures waits > 0 ==> Expired(to, clock, reply, waits - 1) && Nanos(clock(waits + 1)) >= Nanos(clock(0)) + to * MILLI
  {
  }

  /** The loop. `clock(0)` is read before it, `clock(k + 1)` by its round k, and
      `reply(k)` says whether wait k was ended by the reply, `broken` are the waits
      after which the connection was found broken. All waits but the last were full and
      expired; without a reply the loop ends only once the timeout has passed. `sent` are
      the rounds that transmit. */
  method WaitLoop(to: nat, clock: nat -> Timespec, reply: nat -> bool, broken: set<nat>)
    returns (done: bool, waits: nat, sent: seq<nat>)
    requires Fair(to, clock, reply)
    ensures waits == 0 ==> !done && Final(to, clock).sec == 0
    ensures waits > 0 ==> Expired(to, clock, reply, waits - 1)
    ensures done ==> waits > 0 && reply(waits - 1)
    ensures !done && waits > 0 ==> Nanos(clock(waits + 1)) >= Nanos(clock(0)) + to * MILLI
    ensures sent == Sends(broken, if done then waits else waits + 1)
  {
    var final := AddTimespec(clock(0), to);
    var curr: nat := TO_MIN;
    done, waits, sent := false, 0, [0];
    ghost var clipped := false;
    while final.sec != 0
      invariant Round(to, clock, reply, waits, clipped, curr, final)
      invariant sent == Sends(broken, waits + 1)
      decreases !clipped, to - waits
    {
      done, curr, final, waits, clipped := OneRound(to, clock, reply, waits, curr, final);
      if done {
        return;
      }
      // the top of the next round
      if waits - 1 in broken {
        sent := sent + [waits];
      }
    }
    RoundsOver(to, clock, reply, waits, clipped, curr, final);
  }

  /** On a connection that holds, the request is sent once. */
  lemma {:induction false} SentOnce(broken: set<nat>, n: nat)
    requires n > 0 && forall k :: k in broken ==> k >= n
    ensures Sends(broken, n) == [0]
  {
    if n > 1 {
      SentOnce(broken, n - 1);
    }
  }

  /** What holds before each round. */
  ghost predicate Round(to: nat, clock: nat -> Timespec, reply: nat -> bool, waits: nat, clipped: bool, curr: nat, final: Timespec) {
    && Standing(to, clock, reply, waits, clipped)
    && (if clipped then final.sec == 0
        else final == Final(to, clock) && curr == Wait(waits) && (waits > 0 ==> final.sec != 0))
  }

  lemma RoundOn(to: nat, clock: nat -> Timespec, reply: nat -> bool, k: nat, curr: nat)
    requires Fair(to, clock, reply) && Round(to, clock, reply, k, false, curr, Final(to, clock)) && !reply(k)
    requires Final(to, clock).sec != 0
    ensures var c := Clipped(to, clock, k);
      Round(to, clock, reply, k + 1, c, 2 * curr, if c then Timespec(0, Final(to, clock).nsec) else Final(to, clock))
  {
    OneMore(to, clock, reply, k);
  }

  /** The number of waits is logarithmic in the timeout, and no wait has a deadline
      past the final one. */
  lemma WaitsBounded(to: nat, clock: nat -> Timespec, reply: nat -> bool, waits: nat, k: nat)
    requires Fair(to, clock, reply) && k <= waits && Expired(to, clock, reply, waits)
    ensures TO_MIN * (Pow2(k) - 1) <= to
    ensures Nanos(Deadline(to, clock, k)) <= Nanos(clock(0)) + to * MILLI
    ensures to <= INT_MAX ==> Wait(k) <= INT_MAX
  {
    PowGrows(k, waits);
    DeadlineInTime(to, clock, k);
    if to <= INT_MAX {
      WaitFits(to, k);
    }
  }

  // ----- the doubling -----

  /** Timeouts from this many milliseconds on leave time for a wait that cannot be doubled
      in an int. */
  const LONG := 2_097_151_000

  lemma WaitedLong()
    ensures Waited(21) == LONG && Wait(21) <= INT_MAX < Wait(22)
  {
    assert Pow2(5) == 0x20 && Pow2(10) == 0x400 && Pow2(15) == 0x8000 && Pow2(20) == 0x10_0000;
  }

  /** After every wait that expires, the last clipped one included, the doubled wait fits
      an int. */
  ghost predicate DoublingFits(to: nat) {
    forall clock: nat -> Timespec, reply: nat -> bool, k: nat ::
      Fair(to, clock, reply) && Expired(to, clock, reply, k) && !reply(k) ==> Wait(k + 1) <= INT_MAX
  }

  lemma Doubled(to: nat, k: nat)
    requires to < LONG && Waited(k) <= to
    ensures Wait(k + 1) <= INT_MAX
  {
    WaitedLong();
    if k < 21 {
      PowGrows(k + 1, 21);
    } else {
      PowGrows(21, k);
    }
  }

  /** A clock on which no time passes but in the waits, which all expire. */
  function Exact(i: nat): Timespec {
    Timespec(if i == 0 then 1 else Pow2(i - 1), 0)
  }

  lemma ExactClipped(to: nat, k: nat)
    ensures Clipped(to, Exact, k) <==> Waited(k + 1) > to
    ensures Nanos(Exact(k + 2)) >= Nanos(Deadline(to, Exact, k))
  {
    assert Wait(k) % 1000 == 0 && Wait(k) / 1000 == Pow2(k);
    assert Add(Exact(k + 1), Wait(k)) == Timespec(Pow2(k + 1), 0) == Exact(k + 2);
    AddIsSum(Exact(0), to);
    CmpOrders(Exact(k + 2), Final(to, Exact));
  }

  lemma ExactIsFair(to: nat)
    ensures Fair(to, Exact, _ => false)
  {
    forall i: nat, j: nat | i <= j ensures Nanos(Exact(i)) <= Nanos(Exact(j)) {
      if i > 0 {
        PowGrows(i - 1, j - 1);
      }
    }
    forall k: nat ensures Nanos(Exact(k + 2)) >= Nanos(Deadline(to, Exact, k)) {
      ExactClipped(to, k);
    }
  }

  lemma ExactExpires(to: nat, k: nat)
    requires Waited(k) <= to
    ensures Expired(to, Exact, _ => false, k)
  {
    forall i | 0 <= i < k ensures !Clipped(to, Exact, i) {
      PowGrows(i + 1, k);
      ExactClipped(to, i);
    }
  }

  /** The doubling stays in an int if and only if the timeout is shorter than LONG. */
  lemma DoublingFitsWhen(to: nat)
    ensures DoublingFits(to) <==> to < LONG
  {
    WaitedLong();
    if to < LONG {
      forall clock: nat -> Timespec, reply: nat -> bool, k: nat | Expired(to, clock, reply, k) ensures Wait(k + 1) <= INT_MAX {
        Doubled(to, k);
      }
    } else {
      ExactIsFair(to);
      ExactExpires(to, 21);
    }
  }
}
