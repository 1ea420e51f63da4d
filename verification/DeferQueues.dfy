/**
  The defer queue: an array of which the first `count` slots are in use, appended to, overwritten
  by its last element on removal, and sorted by arrival time after every change.
 */
module DeferQueues {
  import opened Fifos
  import opened Redundancy

  // ----- the comparator and sorting -----

  const TWO_31: int := 0x8000_0000
  const TWO_32: int := 0x1_0000_0000

  /** Conversion of a wide integer to a 32-bit signed one. */
  function Truncated(x: int): (y: int)
    ensures -TWO_31 <= y < TWO_31
  {
    (x + TWO_31) % TWO_32 - TWO_31
  }

  function Compare(a: RedPdu, b: RedPdu): int {
    Truncated(a.arrived - b.arrived)
  }

  /** For 32-bit timestamps the truncated difference has the right sign exactly within 31 bits. */
  lemma CompareIsFaithful(a: RedPdu, b: RedPdu)
    requires a.arrived < TWO_32 && b.arrived < TWO_32
    ensures ((Compare(a, b) < 0 <==> a.arrived < b.arrived) && (Compare(a, b) > 0 <==> a.arrived > b.arrived))
            <==> -TWO_31 <= a.arrived - b.arrived < TWO_31
  {
    var d := a.arrived - b.arrived;
    if d < -TWO_31 {
      assert (d + TWO_31) % TWO_32 == d + TWO_31 + TWO_32;
    } else if d < TWO_31 {
      assert (d + TWO_31) % TWO_32 == d + TWO_31;
    } else {
      assert (d + TWO_31) % TWO_32 == d + TWO_31 - TWO_32;
    }
  }

  /** Outside that span the comparator is not even transitive: these three go round in a circle. */
  lemma CompareGoesRound(a: RedPdu, b: RedPdu, c: RedPdu)
    requires a.arrived == 0 && b.arrived == 0x5555_5555 && c.arrived == 0xAAAA_AAAA
    ensures Compare(a, b) < 0 && Compare(b, c) < 0 && Compare(c, a) < 0
  {
  }

  /** All timestamps lie within 31 bits of each other. */
  predicate Close(s: seq<RedPdu>) {
    forall i, j :: 0 <= i < |s| && 0 <= j < |s| ==> -TWO_31 < s[i].arrived - s[j].arrived < TWO_31
  }

  predicate Ordered(s: seq<RedPdu>) {
    forall i, j :: 0 <= i < j < |s| ==> s[i].arrived <= s[j].arrived
  }

  function Insert(s: seq<RedPdu>, e: RedPdu): seq<RedPdu> {
    if s == [] then [e]
    else if Compare(s[|s| - 1], e) > 0 then Insert(s[..|s| - 1], e) + [s[|s| - 1]]
    else s + [e]
  }

  function Sorted(s: seq<RedPdu>): seq<RedPdu> {
    if s == [] then [] else Insert(Sorted(s[..|s| - 1]), s[|s| - 1])
  }

  lemma {:induction false} InsertAddsOne(s: seq<RedPdu>, e: RedPdu)
    ensures multiset(Insert(s, e)) == multiset(s) + multiset{e}
  {
    if s != [] {
      assert s == s[..|s| - 1] + [s[|s| - 1]];
      if Compare(s[|s| - 1], e) > 0 {
        InsertAddsOne(s[..|s| - 1], e);
      }
    }
  }

  lemma {:induction false} SortedIsPermutation(s: seq<RedPdu>)
    ensures multiset(Sorted(s)) == multiset(s)
  {
    if s != [] {
      assert s == s[..|s| - 1] + [s[|s| - 1]];
      SortedIsPermutation(s[..|s| - 1]);
      InsertAddsOne(Sorted(s[..|s| - 1]), s[|s| - 1]);
    }
  }

  predicate CloseTo(s: seq<RedPdu>, e: RedPdu) {
    forall i :: 0 <= i < |s| ==> -TWO_31 < s[i].arrived - e.arrived < TWO_31
  }

  lemma {:induction false} InsertKeepsOrder(s: seq<RedPdu>, e: RedPdu)
    requires Ordered(s) && CloseTo(s, e)
    ensures Ordered(Insert(s, e))
    ensures forall i :: 0 <= i < |Insert(s, e)| ==> Insert(s, e)[i] == e || Insert(s, e)[i] in s
  {
    if s != [] && Compare(s[|s| - 1], e) > 0 {
      InsertKeepsOrder(s[..|s| - 1], e);
    }
  }

  lemma PermutationMembers(s: seq<RedPdu>, t: seq<RedPdu>)
    requires multiset(s) == multiset(t)
    ensures |s| == |t|
    ensures forall i :: 0 <= i < |s| ==> s[i] in t
  {
    assert |multiset(s)| == |s| && |multiset(t)| == |t|;
    forall i | 0 <= i < |s| ensures s[i] in t {
      assert s[i] in multiset(s);
    }
  }

  lemma {:induction false} SortedIsOrdered(s: seq<RedPdu>)
    requires Close(s)
    ensures Ordered(Sorted(s))
  {
    if s != [] {
      var s' := s[..|s| - 1];
      SortedIsOrdered(s');
      SortedIsPermutation(s');
      PermutationMembers(Sorted(s'), s');
      InsertKeepsOrder(Sorted(s'), s[|s| - 1]);
    }
  }

  // ----- the queue -----

  /** The first entry with this number, if any. */
  function FirstIndex(s: seq<RedPdu>, n: nat): (i: int)
    ensures -1 <= i < |s|
    ensures i >= 0 ==> s[i].seqNr == n && forall j :: 0 <= j < i ==> s[j].seqNr != n
    ensures i == -1 ==> forall j :: 0 <= j < |s| ==> s[j].seqNr != n
  {
    if s == [] then -1
    else
      var i := FirstIndex(s[..|s| - 1], n);
      if i >= 0 then i else if s[|s| - 1].seqNr == n then |s| - 1 else -1
  }

  class DeferQueue {
    const maxCount: nat
    const elements: array<RedPdu>
    var count: nat

    ghost predicate Valid()
      reads this
    {
      count <= maxCount && maxCount == elements.Length
    }

    /** The slots in use. */
    ghost function Entries(): seq<RedPdu>
      requires Valid()
      reads this, elements
    {
      elements[..count]
    }

    constructor (maxCount: nat)
      ensures Valid() && fresh(elements) && Entries() == [] && this.maxCount == maxCount
    {
      elements := new RedPdu[maxCount];
      this.maxCount := maxCount;
      count := 0;
    }

    method IsFull() returns (full: bool)
      requires Valid()
      ensures full <==> |Entries()| == maxCount
    {
      full := count == maxCount;
    }

    method FindIndex(n: nat) returns (i: int)
      requires Valid()
      ensures i == FirstIndex(Entries(), n)
    {
      var index := 0;
      while index < count && elements[index].seqNr != n
        invariant 0 <= index <= count
        invariant forall j :: 0 <= j < index ==> elements[j].seqNr != n
      {
        index := index + 1;
      }
      i := if index == count then -1 else index;
      FirstIndexUnique(Entries(), n, i);
    }

    /**
      Stands for the library's sorting routine.  For close timestamps its contract is what the C
      standard promises; that it yields a permutation otherwise, too, is an assumption, since the
      standard promises nothing when the comparator goes round.
     */
    method Sort()
      requires Valid()
      modifies elements
      ensures Valid() && multiset(Entries()) == old(multiset(Entries()))
      ensures Close(old(Entries())) ==> Ordered(Entries())
    {
      ghost var before := Entries();
      var sorted := Sorted(elements[..count]);
      SortedIsPermutation(before);
      PermutationMembers(sorted, before);
      for i := 0 to count
        invariant elements[..i] == sorted[..i]
      {
        elements[i] := sorted[i];
      }
      assert Entries() == sorted;
      if Close(before) {
        SortedIsOrdered(before);
      }
    }

    method Add(p: RedPdu, now: nat) returns (ok: bool)
      requires Valid()
      modifies this, elements
      ensures Valid() && ok == (|old(Entries())| < maxCount)
      ensures multiset(Entries()) ==
              if ok then old(multiset(Entries())) + multiset{p.(arrived := now)} else old(multiset(Entries()))
      ensures ok && Close(old(Entries()) + [p.(arrived := now)]) ==> Ordered(Entries())
    {
      if count == maxCount {
        return false;
      }
      ghost var before := Entries();
      elements[count] := p.(arrived := now);
      count := count + 1;
      assert Entries() == before + [p.(arrived := now)];
      Sort();
      return true;
    }

    method Contains(n: nat) returns (b: bool)
      requires Valid()
      ensures b <==> exists e :: e in multiset(Entries()) && e.seqNr == n
    {
      var i := FindIndex(n);
      b := i != -1;
      if b {
        assert Entries()[i] in multiset(Entries());
      }
    }

    /** Some entry with this number, the one a removal would take; None stands for the empty PDU. */
    method Get(n: nat) returns (e: Option<RedPdu>)
      requires Valid()
      ensures e == if FirstIndex(Entries(), n) == -1 then None else Some(Entries()[FirstIndex(Entries(), n)])
    {
      var i := FindIndex(n);
      e := if i == -1 then None else Some(elements[i]);
    }

    method Remove(n: nat)
      requires Valid()
      modifies this, elements
      ensures Valid()
      ensures
        var i := FirstIndex(old(Entries()), n);
        && multiset(Entries()) == old(multiset(Entries())) - (if i == -1 then multiset{} else multiset{old(Entries())[i]})
        && (if i == -1 then Entries() == old(Entries()) else Close(old(Entries())) ==> Ordered(Entries()))
    {
      hide Close, Ordered, FirstIndex;
      ghost var before := Entries();
      var i := FindIndex(n);
      if i < 0 {
        return;
      }
      if i != count - 1 {
        elements[i] := elements[count - 1];
      }
      count := count - 1;
      SwapRemoved(before, Entries(), i);
      SwapStaysClose(before, Entries(), i);
      Sort();
    }

    /** The scan covers every slot, used or not; only on a full queue does it yield the minimum. */
    method SmallestSeqNr() returns (index: nat)
      requires Valid() && maxCount > 0
      ensures index < maxCount
      ensures (forall k :: 0 <= k < maxCount ==> elements[k].seqNr < TWO_32) ==>
                forall k :: 0 <= k < maxCount ==> elements[index].seqNr <= elements[k].seqNr
    {
      index := 0;
      var smallest := 0xFFFFFFFF;
      for i := 0 to maxCount
        invariant index < maxCount && smallest <= 0xFFFFFFFF
        invariant smallest < 0xFFFFFFFF ==> elements[index].seqNr == smallest
        invariant forall k :: 0 <= k < i ==> smallest <= elements[k].seqNr
      {
        if elements[i].seqNr < smallest {
          smallest := elements[i].seqNr;
          index := i;
        }
      }
    }
  }

  lemma {:induction false} FirstIndexUnique(s: seq<RedPdu>, n: nat, i: int)
    requires -1 <= i < |s|
    requires i >= 0 ==> s[i].seqNr == n && forall j :: 0 <= j < i ==> s[j].seqNr != n
    requires i == -1 ==> forall j :: 0 <= j < |s| ==> s[j].seqNr != n
    ensures i == FirstIndex(s, n)
  {
    var k := FirstIndex(s, n);
    if k >= 0 && i >= 0 {
      assert !(k < i) && !(i < k);
    }
  }

  lemma SwapStaysClose(before: seq<RedPdu>, after: seq<RedPdu>, i: nat)
    requires i < |before| && |after| == |before| - 1
    requires forall k :: 0 <= k < |after| ==> after[k] == if k == i then before[|before| - 1] else before[k]
    ensures Close(before) ==> Close(after)
  {
  }

  predicate Distinct(s: seq<RedPdu>) {
    forall i, j :: 0 <= i < |s| && 0 <= j < |s| && s[i].seqNr == s[j].seqNr ==> s[i] == s[j]
  }

  /** With distinct numbers a look-up depends on what is queued, not on the order. */
  lemma LookupIgnoresOrder(s: seq<RedPdu>, t: seq<RedPdu>, n: nat)
    requires Distinct(s) && multiset(s) == multiset(t)
    ensures FirstIndex(s, n) == -1 <==> FirstIndex(t, n) == -1
    ensures FirstIndex(s, n) != -1 ==> s[FirstIndex(s, n)] == t[FirstIndex(t, n)]
  {
    PermutationMembers(s, t);
    PermutationMembers(t, s);
    var i, j := FirstIndex(s, n), FirstIndex(t, n);
    if i != -1 {
      assert s[i] in t;
    }
    if j != -1 {
      assert t[j] in s;
    }
  }

  /** Moving the last element into the gap removes exactly one element. */
  lemma SwapRemoved(before: seq<RedPdu>, after: seq<RedPdu>, i: nat)
    requires i < |before| && |after| == |before| - 1
    requires forall k :: 0 <= k < |after| ==> after[k] == if k == i then before[|before| - 1] else before[k]
    ensures multiset(after) == multiset(before) - multiset{before[i]}
  {
    var n := |before| - 1;
    assert before == before[..n] + [before[n]];
    if i == n {
      assert after == before[..n];
    } else {
      assert before[..n] == before[..i] + [before[i]] + before[i + 1..n];
      assert after == before[..i] + [before[n]] + before[i + 1..n];
    }
  }
}
