/**
 * The per-city quota buckets shared by every replica. A bucket row keeps the
 * instants of its recent grants and a deadline set by a Retry-After. Instants
 * are integers of microseconds, the resolution of the stored timestamps.
 */
module RateLimits {
  import opened Common
  import opened Sorting

  const SECOND := 1_000_000
  const WINDOW := 60 * SECOND

  datatype Category = WalletRead | WalletWrite | MarketOffer | CentralRequest

  function DefaultLimit(c: Category): nat {
    match c
    case WalletRead => 300
    case WalletWrite => 120
    case MarketOffer => 60
    case CentralRequest => 10
  }

  /** The limit in force: a smaller positive announcement of the cycle prevails. */
  function Limit(c: Category, announced: Option<int>): (n: nat)
    ensures 1 <= n <= DefaultLimit(c)
  {
    if c == CentralRequest || announced.None? || announced.value <= 0 then DefaultLimit(c)
    else Min(DefaultLimit(c), announced.value)
  }

  /** Whole seconds to wait, rounded up and never less than one. */
  function WaitSeconds(micros: int): (s: nat)
    requires micros > 0
    ensures s >= 1 && (s - 1) * SECOND < micros <= s * SECOND
  {
    (micros + SECOND - 1) / SECOND
  }

  datatype Bucket = Bucket(attempts: seq<int>, blockedUntil: Option<int>)

  const EMPTY := Bucket([], None)

  function Newer(s: seq<int>, cutoff: int): (r: seq<int>)
    ensures forall x | x in r :: x > cutoff
  {
    if s == [] then []
    else
      var n := |s| - 1;
      Newer(s[..n], cutoff) + (if s[n] > cutoff then [s[n]] else [])
  }

  predicate IntLe(a: int, b: int) { a <= b }

  /** The attempts still inside the window that ends at now, oldest first. */
  function Recent(b: Bucket, now: int): seq<int> {
    Sort(IntLe, Newer(b.attempts, now - WINDOW))
  }

  predicate Blocked(b: Bucket, now: int) {
    b.blockedUntil.Some? && b.blockedUntil.value > now
  }

  predicate Grants(b: Bucket, limit: nat, now: int) {
    !Blocked(b, now) && |Recent(b, now)| < limit
  }

  function AfterReserve(b: Bucket, limit: nat, now: int): Bucket {
    if Grants(b, limit, now) then b.(attempts := Recent(b, now) + [now]) else b
  }

  lemma RecentIsNewer(b: Bucket, now: int)
    ensures |Recent(b, now)| == |Newer(b.attempts, now - WINDOW)|
    ensures forall x | x in Recent(b, now) :: x > now - WINDOW
  {
    var kept := Newer(b.attempts, now - WINDOW);
    SortPermutes(IntLe, kept);
    forall x | x in Recent(b, now) ensures x > now - WINDOW {
      assert x in multiset(Recent(b, now));
      assert x in kept;
    }
  }

  /** 0 when the attempt is granted, else the seconds the caller is told to wait. */
  function Wait(b: Bucket, limit: nat, now: int): (s: nat)
    requires limit >= 1
    ensures s == 0 <==> Grants(b, limit, now)
  {
    if Blocked(b, now) then WaitSeconds(b.blockedUntil.value - now)
    else if |Recent(b, now)| < limit then 0
    else
      RecentIsNewer(b, now);
      assert Recent(b, now)[0] in Recent(b, now);
      WaitSeconds(Recent(b, now)[0] + WINDOW - now)
  }

  function AfterBlock(b: Bucket, seconds: nat, now: int): Bucket {
    var deadline := now + seconds * SECOND;
    if b.blockedUntil.None? || b.blockedUntil.value < deadline
    then b.(blockedUntil := Some(deadline)) else b
  }

  /** One bucket row. */
  class OperationalRateLimit {
    const category: Category
    var attempts: seq<int>
    var blockedUntil: Option<int>

    ghost function State(): Bucket reads this { Bucket(attempts, blockedUntil) }

    constructor (category: Category)
      ensures this.category == category && State() == EMPTY
    {
      this.category := category;
      attempts, blockedUntil := [], None;
    }

    method Reserve(announced: Option<int>, now: int) returns (wait: nat)
      modifies this
      ensures wait == Wait(old(State()), Limit(category, announced), now)
      ensures State() == AfterReserve(old(State()), Limit(category, announced), now)
    {
      if blockedUntil.Some? && blockedUntil.value > now {
        return WaitSeconds(blockedUntil.value - now);
      }
      var kept := [];
      for i := 0 to |attempts|
        invariant kept == Newer(attempts[..i], now - WINDOW)
      {
        assert attempts[..i + 1][..i] == attempts[..i];
        if attempts[i] > now - WINDOW {
          kept := kept + [attempts[i]];
        }
      }
      assert attempts[..|attempts|] == attempts;
      var recent := Sort(IntLe, kept);
      RecentIsNewer(State(), now);
      if |recent| >= Limit(category, announced) {
        assert recent[0] in recent;
        return WaitSeconds(recent[0] + WINDOW - now);
      }
      attempts := recent + [now];
      return 0;
    }

    method Block(seconds: nat, now: int)
      modifies this
      ensures State() == AfterBlock(old(State()), seconds, now)
    {
      var deadline := now + seconds * SECOND;
      if blockedUntil.None? || blockedUntil.value < deadline {
        blockedUntil := Some(deadline);
      }
    }
  }

  // ---- Runs -------------------------------------------------------------

  datatype Call =
    | Reserve(announced: Option<int>, now: int)
    | Block(seconds: nat, now: int)

  function Step(c: Category, b: Bucket, call: Call): Bucket {
    match call
    case Reserve(announced, now) => AfterReserve(b, Limit(c, announced), now)
    case Block(seconds, now) => AfterBlock(b, seconds, now)
  }

  /** A bucket with the instants of all grants it has given. */
  datatype Trace = Trace(bucket: Bucket, history: seq<int>)

  predicate Granted(c: Category, b: Bucket, call: Call) {
    call.Reserve? && Grants(b, Limit(c, call.announced), call.now)
  }

  function Advance(c: Category, t: Trace, call: Call): Trace {
    Trace(Step(c, t.bucket, call),
          if Granted(c, t.bucket, call) then t.history + [call.now] else t.history)
  }

  /** The calls in the order in which they held the row lock. */
  function Run(c: Category, calls: seq<Call>): Trace {
    if calls == [] then Trace(EMPTY, [])
    else Advance(c, Run(c, calls[..|calls| - 1]), calls[|calls| - 1])
  }

  ghost predicate InLockOrder(calls: seq<Call>) {
    forall i | 0 < i < |calls| :: calls[i - 1].now <= calls[i].now
  }

  /** How many instants lie in [from, to). */
  function CountWithin(s: seq<int>, from: int, to: int): nat {
    if s == [] then 0
    else CountWithin(s[..|s| - 1], from, to) + (if from <= s[|s| - 1] < to then 1 else 0)
  }

  ghost predicate Increasing(s: seq<int>) {
    forall i, j | 0 <= i < j < |s| :: s[i] <= s[j]
  }

  /** Any limit + 1 consecutive grants span at least one window. */
  ghost predicate Spaced(s: seq<int>, limit: nat) {
    forall i {:trigger s[i]} | limit <= i < |s| :: s[i] - s[i - limit] >= WINDOW
  }

  /** The stored attempts are the grants that still matter at the instant `last`. */
  ghost predicate Tracks(b: Bucket, history: seq<int>, last: int) {
    && Increasing(history)
    && (forall x | x in history :: x <= last)
    && |b.attempts| <= |history|
    && b.attempts == history[|history| - |b.attempts|..]
    && (forall i | 0 <= i < |history| - |b.attempts| :: history[i] <= last - WINDOW)
  }

  lemma {:induction false} NothingAboveLast(s: seq<int>, cutoff: int)
    requires forall i | 0 <= i < |s| :: s[i] <= cutoff
    ensures Newer(s, cutoff) == []
  {
    if s != [] {
      NothingAboveLast(s[..|s| - 1], cutoff);
    }
  }

  /** What is kept is the end of the sequence, and what is dropped is old. */
  ghost predicate EndOf(kept: seq<int>, s: seq<int>, cutoff: int) {
    && |kept| <= |s| && kept == s[|s| - |kept|..]
    && forall i | 0 <= i < |s| - |kept| :: s[i] <= cutoff
  }

  lemma OneMoreKept(kept: seq<int>, s: seq<int>, x: int, cutoff: int)
    requires EndOf(kept, s, cutoff)
    ensures EndOf(kept + [x], s + [x], cutoff)
  {
  }

  lemma {:induction false} NewerOfIncreasing(s: seq<int>, cutoff: int)
    requires Increasing(s)
    ensures EndOf(Newer(s, cutoff), s, cutoff)
  {
    if s != [] {
      var n := |s| - 1;
      if s[n] > cutoff {
        NewerOfIncreasing(s[..n], cutoff);
        OneMoreKept(Newer(s[..n], cutoff), s[..n], s[n], cutoff);
        assert s[..n] + [s[n]] == s;
      } else {
        NothingAboveLast(s, cutoff);
      }
    }
  }

  /** The stored attempts are in order already. */
  lemma RecentKeepsOrder(b: Bucket, now: int)
    requires Increasing(b.attempts)
    ensures Recent(b, now) == Newer(b.attempts, now - WINDOW)
  {
    var kept := Newer(b.attempts, now - WINDOW);
    NewerOfIncreasing(b.attempts, now - WINDOW);
    assert forall i, j | 0 <= i < j < |kept| :: kept[i] <= kept[j];
    SortOfSorted(IntLe, kept);
  }

  lemma EndOfEnd(kept: seq<int>, s: seq<int>, k: nat, cutoff: int)
    requires k <= |s| && EndOf(kept, s[k..], cutoff)
    requires forall i | 0 <= i < k :: s[i] <= cutoff
    ensures EndOf(kept, s, cutoff)
  {
  }

  lemma RecentOfTracked(b: Bucket, history: seq<int>, last: int, now: int)
    requires Tracks(b, history, last) && last <= now
    ensures EndOf(Recent(b, now), history, now - WINDOW)
    ensures |Recent(b, now)| <= |b.attempts|
  {
    var k := |history| - |b.attempts|;
    assert Increasing(history[k..]);
    RecentKeepsOrder(b, now);
    NewerOfIncreasing(b.attempts, now - WINDOW);
    EndOfEnd(Recent(b, now), history, k, now - WINDOW);
  }

  lemma GrantKeepsTrack(b: Bucket, history: seq<int>, last: int, limit: nat, now: int)
    requires Tracks(b, history, last) && last <= now && Grants(b, limit, now)
    ensures Tracks(AfterReserve(b, limit, now), history + [now], now)
  {
    RecentOfTracked(b, history, last, now);
    var r, n := Recent(b, now), |history|;
    var history' := history + [now];
    assert history'[n - |r|..] == history[n - |r|..] + [now];
    forall i, j | 0 <= i < j < |history'| ensures history'[i] <= history'[j] {
      if j == n {
        assert history[i] in history;
      }
    }
  }

  lemma GrantKeepsSpacing(b: Bucket, history: seq<int>, last: int, limit: nat, bound: nat, now: int)
    requires Tracks(b, history, last) && last <= now && Grants(b, limit, now)
    requires Spaced(history, bound) && limit <= bound
    ensures Spaced(history + [now], bound)
  {
    RecentOfTracked(b, history, last, now);
    var n, history' := |history|, history + [now];
    forall i {:trigger history'[i]} | bound <= i < |history'|
      ensures history'[i] - history'[i - bound] >= WINDOW
    {
      if i < n {
        assert history[i] - history[i - bound] >= WINDOW;
      }
    }
  }

  ghost function LastInstant(calls: seq<Call>): int
    requires calls != []
  {
    calls[|calls| - 1].now
  }

  ghost predicate Faithful(c: Category, t: Trace, last: int) {
    Tracks(t.bucket, t.history, last) && Spaced(t.history, DefaultLimit(c))
  }

  lemma StaysFaithful(c: Category, t: Trace, earlier: int, later: int)
    requires Faithful(c, t, earlier) && earlier <= later
    ensures Faithful(c, t, later)
  {
  }

  lemma AdvanceKeepsTrack(c: Category, t: Trace, last: int, call: Call)
    requires Faithful(c, t, last) && last <= call.now
    ensures Faithful(c, Advance(c, t, call), call.now)
  {
    if Granted(c, t.bucket, call) {
      var limit := Limit(c, call.announced);
      GrantKeepsTrack(t.bucket, t.history, last, limit, call.now);
      GrantKeepsSpacing(t.bucket, t.history, last, limit, DefaultLimit(c), call.now);
    }
  }

  lemma {:induction false} RunKeepsTrack(c: Category, calls: seq<Call>, last: int)
    requires InLockOrder(calls)
    requires calls != [] ==> LastInstant(calls) <= last
    ensures Faithful(c, Run(c, calls), last)
  {
    if calls == [] {
      assert Run(c, calls) == Trace(EMPTY, []);
    } else {
      var n := |calls| - 1;
      var before := Run(c, calls[..n]);
      RunKeepsTrack(c, calls[..n], calls[n].now);
      AdvanceKeepsTrack(c, before, calls[n].now, calls[n]);
      assert Run(c, calls) == Advance(c, before, calls[n]);
      StaysFaithful(c, Run(c, calls), calls[n].now, last);
    }
  }

  lemma {:induction false} CountOfSplit(s: seq<int>, k: nat, from: int, to: int)
    requires k <= |s|
    ensures CountWithin(s, from, to) == CountWithin(s[..k], from, to) + CountWithin(s[k..], from, to)
  {
    if k == |s| {
      assert s[..k] == s;
    } else {
      var n := |s| - 1;
      CountOfSplit(s[..n], k, from, to);
      assert s[..n][..k] == s[..k] && s[..n][k..] == s[k..][..n - k];
    }
  }

  lemma {:induction false} CountAtMostLength(s: seq<int>, from: int, to: int)
    ensures CountWithin(s, from, to) <= |s|
  {
    if s == [] {
    } else {
      CountAtMostLength(s[..|s| - 1], from, to);
    }
  }

  lemma {:induction false} NoneBefore(s: seq<int>, from: int, to: int)
    requires forall i | 0 <= i < |s| :: s[i] < from
    ensures CountWithin(s, from, to) == 0
  {
    if s == [] {
    } else {
      NoneBefore(s[..|s| - 1], from, to);
    }
  }

  lemma {:induction false} SpacedBoundsWindow(s: seq<int>, limit: nat, from: int)
    requires Increasing(s) && Spaced(s, limit) && limit >= 1
    ensures CountWithin(s, from, from + WINDOW) <= limit
  {
    var n, to := |s|, from + WINDOW;
    if n <= limit {
      CountAtMostLength(s, from, to);
    } else if s[n - 1] >= to {
      var t := s[..n - 1];
      forall i {:trigger t[i]} | limit <= i < |t| ensures t[i] - t[i - limit] >= WINDOW {
        assert s[i] - s[i - limit] >= WINDOW;
      }
      SpacedBoundsWindow(t, limit, from);
    } else {
      var early, late := s[..n - limit], s[n - limit..];
      assert s[n - 1] - s[n - 1 - limit] >= WINDOW;
      forall i | 0 <= i < |early| ensures early[i] < from {
        assert s[i] <= s[n - 1 - limit];
      }
      CountOfSplit(s, n - limit, from, to);
      NoneBefore(early, from, to);
      CountAtMostLength(late, from, to);
    }
  }

  // ---- Main results -----------------------------------------------------

  /** Every half-open window of sixty seconds holds at most the category's limit of grants. */
  lemma EveryWindowWithinLimit(c: Category, calls: seq<Call>, from: int)
    requires InLockOrder(calls)
    ensures CountWithin(Run(c, calls).history, from, from + WINDOW) <= DefaultLimit(c)
  {
    RunKeepsTrack(c, calls, if calls == [] then 0 else LastInstant(calls));
    SpacedBoundsWindow(Run(c, calls).history, DefaultLimit(c), from);
  }

  lemma {:induction false} DeadlineNeverDrops(c: Category, calls: seq<Call>, i: nat)
    requires i < |calls| && calls[i].Block?
    ensures Run(c, calls).bucket.blockedUntil.Some?
    ensures Run(c, calls).bucket.blockedUntil.value >= calls[i].now + calls[i].seconds * SECOND
  {
    var n := |calls| - 1;
    if i < n {
      DeadlineNeverDrops(c, calls[..n], i);
    }
  }

  /** No grant is dated before the deadline of a block recorded earlier in the run. */
  lemma NoGrantBeforeDeadline(c: Category, calls: seq<Call>, i: nat, j: nat)
    requires i < j < |calls| && calls[i].Block?
    requires Granted(c, Run(c, calls[..j]).bucket, calls[j])
    ensures calls[i].now + calls[i].seconds * SECOND <= calls[j].now
  {
    DeadlineNeverDrops(c, calls[..j], i);
  }

  ghost predicate FixedLimit(c: Category, calls: seq<Call>, limit: nat) {
    forall i | 0 <= i < |calls| :: calls[i].Reserve? && Limit(c, calls[i].announced) == limit
  }

  lemma {:induction false} FixedLimitBoundsAttempts(c: Category, calls: seq<Call>, limit: nat)
    requires FixedLimit(c, calls, limit)
    ensures |Run(c, calls).bucket.attempts| <= limit && Run(c, calls).bucket.blockedUntil.None?
  {
    if calls == [] {
    } else {
      FixedLimitBoundsAttempts(c, calls[..|calls| - 1], limit);
    }
  }

  lemma OldestDecides(b: Bucket, history: seq<int>, limit: nat, now: int, later: int)
    requires Tracks(b, history, now) && b.blockedUntil.None? && |b.attempts| <= limit
    requires limit >= 1 && !Grants(b, limit, now) && now <= later
    ensures |Recent(b, now)| == limit
    ensures Grants(b, limit, later) <==> Recent(b, now)[0] + WINDOW <= later
  {
    RecentIsNewer(b, later);
    RecentOfTracked(b, history, now, now);
    RecentOfTracked(b, history, now, later);
    var k, k' := |Recent(b, now)|, |Recent(b, later)|;
    var oldest := history[|history| - k];
    assert k == limit && oldest == Recent(b, now)[0];
    if k' >= k {
      assert oldest == Recent(b, later)[k' - k];
      assert oldest in Recent(b, later);
    }
  }

  /**
   * With one limit and no block, a caller told to wait r seconds is granted
   * r seconds later when nobody was granted in between, and never a second or
   * more before that: the wait is enough and it is the least whole number.
   */
  lemma DeferralIsExact(c: Category, calls: seq<Call>, limit: nat, now: int, later: int)
    requires FixedLimit(c, calls, limit) && InLockOrder(calls) && limit >= 1
    requires calls != [] ==> LastInstant(calls) <= now
    requires !Grants(Run(c, calls).bucket, limit, now) && now <= later
    ensures var b, r := Run(c, calls).bucket, Wait(Run(c, calls).bucket, limit, now);
            && (later >= now + r * SECOND ==> Grants(b, limit, later))
            && (later <= now + (r - 1) * SECOND ==> !Grants(b, limit, later))
  {
    FixedLimitBoundsAttempts(c, calls, limit);
    RunKeepsTrack(c, calls, now);
    OldestDecides(Run(c, calls).bucket, Run(c, calls).history, limit, now, later);
    RecentIsNewer(Run(c, calls).bucket, now);
  }
}
