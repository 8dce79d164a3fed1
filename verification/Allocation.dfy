/**
 * The batch policies as an allocation problem: bids are taken in one order while
 * they fit, and that greedy choice is compared with every other choice.
 */
module Allocation {
  import opened Common
  import opened Deals
  import opened Sorting

  datatype Policy = FIFO | MAX_REMAINING | BATCH

  function ByAge(a: Bid, b: Bid): bool {
    a.createdAt < b.createdAt || (a.createdAt == b.createdAt && a.idpk <= b.idpk)
  }

  function SmallFirst(a: Bid, b: Bid): bool {
    a.quantity < b.quantity || (a.quantity == b.quantity && ByAge(a, b))
  }

  function LargeFirst(a: Bid, b: Bid): bool {
    a.quantity > b.quantity || (a.quantity == b.quantity && ByAge(a, b))
  }

  function Ordered(bids: seq<Bid>, p: Policy): seq<Bid> {
    match p
    case FIFO => Sort(ByAge, bids)
    case MAX_REMAINING => Sort(LargeFirst, bids)
    case BATCH => Sort(SmallFirst, bids)
  }

  lemma OrderedPermutes(bids: seq<Bid>, p: Policy)
    ensures multiset(Ordered(bids, p)) == multiset(bids)
  {
    match p
    case FIFO => SortPermutes(ByAge, bids);
    case MAX_REMAINING => SortPermutes(LargeFirst, bids);
    case BATCH => SortPermutes(SmallFirst, bids);
  }

  predicate Eligible(b: Bid, minBid: nat) {
    b.buyer != CITY_ID && b.quantity >= minBid
  }

  predicate AllEligible(bids: seq<Bid>, minBid: nat) {
    forall b | b in bids :: Eligible(b, minBid)
  }

  function Total(bids: seq<Bid>): nat {
    if bids == [] then 0 else bids[0].quantity + Total(bids[1..])
  }

  /** The bids that are taken when each one in turn is taken if it still fits. */
  function Greedy(bids: seq<Bid>, minBid: nat, capacity: nat): seq<Bid> {
    if bids == [] then []
    else if Eligible(bids[0], minBid) && bids[0].quantity <= capacity
    then [bids[0]] + Greedy(bids[1..], minBid, capacity - bids[0].quantity)
    else Greedy(bids[1..], minBid, capacity)
  }

  lemma {:induction false} GreedyFits(bids: seq<Bid>, minBid: nat, capacity: nat)
    ensures Total(Greedy(bids, minBid, capacity)) <= capacity
    ensures multiset(Greedy(bids, minBid, capacity)) <= multiset(bids)
    ensures AllEligible(Greedy(bids, minBid, capacity), minBid)
  {
    if bids != [] {
      assert bids == [bids[0]] + bids[1..];
      if Eligible(bids[0], minBid) && bids[0].quantity <= capacity {
        GreedyFits(bids[1..], minBid, capacity - bids[0].quantity);
      } else {
        GreedyFits(bids[1..], minBid, capacity);
      }
    }
  }

  // ---- Choices ----------------------------------------------------------

  function Without(s: seq<Bid>, i: nat): seq<Bid>
    requires i < |s|
  {
    s[..i] + s[i + 1..]
  }

  lemma {:induction false} TotalWithout(s: seq<Bid>, i: nat)
    requires i < |s|
    ensures Total(Without(s, i)) == Total(s) - s[i].quantity
  {
    if i == 0 {
      assert Without(s, 0) == s[1..];
    } else {
      TotalWithout(s[1..], i - 1);
      assert Without(s, i)[1..] == Without(s[1..], i - 1);
    }
  }

  lemma WithoutElements(s: seq<Bid>, i: nat)
    requires i < |s|
    ensures multiset(Without(s, i)) == multiset(s) - multiset{s[i]}
  {
    assert s == s[..i] + [s[i]] + s[i + 1..];
  }

  lemma HeadOut(sel: seq<Bid>, bids: seq<Bid>)
    requires bids != [] && multiset(sel) <= multiset(bids) && bids[0] !in sel
    ensures multiset(sel) <= multiset(bids[1..])
  {
    assert bids == [bids[0]] + bids[1..];
    assert multiset(sel)[bids[0]] == 0;
  }

  /** One choice less the head, or less any element when the head was not chosen. */
  lemma OneOut(sel: seq<Bid>, bids: seq<Bid>, i: nat)
    requires bids != [] && multiset(sel) <= multiset(bids) && i < |sel|
    requires sel[i] == bids[0] || bids[0] !in sel
    ensures multiset(Without(sel, i)) <= multiset(bids[1..])
    ensures forall b | b in Without(sel, i) :: b in sel
  {
    WithoutElements(sel, i);
    assert bids == [bids[0]] + bids[1..];
    if bids[0] !in sel {
      HeadOut(sel, bids);
    }
  }

  lemma ChosenIsOffered(sel: seq<Bid>, bids: seq<Bid>, i: nat)
    requires multiset(sel) <= multiset(bids) && i < |sel|
    ensures sel[i] in bids
  {
    assert sel[i] in multiset(sel);
  }

  // ---- Smallest first ---------------------------------------------------

  predicate Ascending(bids: seq<Bid>) {
    forall i, j | 0 <= i < j < |bids| :: bids[i].quantity <= bids[j].quantity
  }

  predicate Descending(bids: seq<Bid>) {
    forall i, j | 0 <= i < j < |bids| :: bids[i].quantity >= bids[j].quantity
  }

  /** No eligible choice that fits has more bids than the smallest-first one. */
  lemma {:induction false} SmallestFirstIsMaximal(bids: seq<Bid>, minBid: nat, capacity: nat, sel: seq<Bid>)
    requires Ascending(bids) && multiset(sel) <= multiset(bids)
    requires AllEligible(sel, minBid) && Total(sel) <= capacity
    ensures |sel| <= |Greedy(bids, minBid, capacity)|
    decreases |bids|, 1
  {
    if sel == [] {
    } else {
      ChosenIsOffered(sel, bids, 0);
      if bids[0] in sel {
        var i :| 0 <= i < |sel| && sel[i] == bids[0];
        DropAndRecur(bids, minBid, capacity, sel, i);
      } else if Eligible(bids[0], minBid) {
        DropAndRecur(bids, minBid, capacity, sel, 0);
      } else {
        HeadOut(sel, bids);
        SmallestFirstIsMaximal(bids[1..], minBid, capacity, sel);
      }
    }
  }

  lemma {:induction false} DropAndRecur(bids: seq<Bid>, minBid: nat, capacity: nat, sel: seq<Bid>, i: nat)
    requires Ascending(bids) && multiset(sel) <= multiset(bids)
    requires AllEligible(sel, minBid) && Total(sel) <= capacity
    requires bids != [] && i < |sel| && Eligible(bids[0], minBid)
    requires sel[i] == bids[0] || bids[0] !in sel
    ensures |sel| <= |Greedy(bids, minBid, capacity)|
    decreases |bids|, 0
  {
    ChosenIsOffered(sel, bids, i);
    assert bids[0].quantity <= sel[i].quantity;
    TotalWithout(sel, i);
    OneOut(sel, bids, i);
    SmallestFirstIsMaximal(bids[1..], minBid, capacity - bids[0].quantity, Without(sel, i));
  }

  // ---- Largest first ----------------------------------------------------

  function EligibleOf(bids: seq<Bid>, minBid: nat): seq<Bid> {
    if bids == [] then []
    else if Eligible(bids[0], minBid) then [bids[0]] + EligibleOf(bids[1..], minBid)
    else EligibleOf(bids[1..], minBid)
  }

  /** The greedy choice takes everything eligible, or leaves less than `largest` unused. */
  lemma {:induction false} TakesAllOrFills(bids: seq<Bid>, minBid: nat, capacity: nat, largest: nat)
    requires forall b | b in bids :: b.quantity <= largest
    ensures Greedy(bids, minBid, capacity) == EligibleOf(bids, minBid)
            || Total(Greedy(bids, minBid, capacity)) + largest > capacity
  {
    if bids != [] {
      if Eligible(bids[0], minBid) && bids[0].quantity <= capacity {
        TakesAllOrFills(bids[1..], minBid, capacity - bids[0].quantity, largest);
      } else {
        TakesAllOrFills(bids[1..], minBid, capacity, largest);
        assert bids[0] in bids;
      }
    }
  }

  lemma {:induction false} NoChoiceExceedsEligible(bids: seq<Bid>, minBid: nat, sel: seq<Bid>)
    requires multiset(sel) <= multiset(bids) && AllEligible(sel, minBid)
    ensures Total(sel) <= Total(EligibleOf(bids, minBid))
  {
    if sel == [] {
    } else {
      ChosenIsOffered(sel, bids, 0);
      if bids[0] in sel {
        var i :| 0 <= i < |sel| && sel[i] == bids[0];
        TotalWithout(sel, i);
        OneOut(sel, bids, i);
        NoChoiceExceedsEligible(bids[1..], minBid, Without(sel, i));
      } else {
        HeadOut(sel, bids);
        NoChoiceExceedsEligible(bids[1..], minBid, sel);
      }
    }
  }

  lemma {:induction false} ChosenFits(sel: seq<Bid>, b: Bid)
    requires b in sel
    ensures b.quantity <= Total(sel)
  {
    if sel[0] != b {
      ChosenFits(sel[1..], b);
    }
  }

  /** Largest first takes at least half the energy of any eligible choice that fits. */
  lemma {:induction false} LargestFirstTakesHalf(bids: seq<Bid>, minBid: nat, capacity: nat, sel: seq<Bid>)
    requires Descending(bids) && multiset(sel) <= multiset(bids)
    requires AllEligible(sel, minBid) && Total(sel) <= capacity
    ensures 2 * Total(Greedy(bids, minBid, capacity)) >= Total(sel)
  {
    if sel != [] {
      ChosenIsOffered(sel, bids, 0);
      if Eligible(bids[0], minBid) && bids[0].quantity <= capacity {
        NoChoiceExceedsEligible(bids, minBid, sel);
        TakesAllOrFills(bids[1..], minBid, capacity - bids[0].quantity, bids[0].quantity);
      } else {
        if bids[0] in sel {
          ChosenFits(sel, bids[0]);
        }
        HeadOut(sel, bids);
        LargestFirstTakesHalf(bids[1..], minBid, capacity, sel);
      }
    }
  }

  // ---- The policies sort that way ---------------------------------------

  lemma SmallFirstAscends(bids: seq<Bid>)
    ensures Ascending(Ordered(bids, BATCH))
  {
    SortSorts(SmallFirst, bids);
    var s := Ordered(bids, BATCH);
    forall i, j | 0 <= i < j < |s| ensures s[i].quantity <= s[j].quantity {
      assert SmallFirst(s[i], s[j]);
    }
  }

  lemma LargeFirstDescends(bids: seq<Bid>)
    ensures Descending(Ordered(bids, MAX_REMAINING))
  {
    SortSorts(LargeFirst, bids);
    var s := Ordered(bids, MAX_REMAINING);
    forall i, j | 0 <= i < j < |s| ensures s[i].quantity >= s[j].quantity {
      assert LargeFirst(s[i], s[j]);
    }
  }
}
