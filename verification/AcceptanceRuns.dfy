/**
 * All interleavings of acceptance workers, crashes and wallet events over the
 * acceptor records of the city's bids.
 */
module AcceptanceRuns {
  import opened Common
  import opened Deals
  import opened SwapDispatch
  import opened A = SwapAcceptance

  /** A POST /swaps/{id}/accept. */
  datatype Post = Post(bid: Uuid, key: Uuid, swapId: string)

  datatype Worker = Worker(bid: Uuid, phase: Phase)

  /** The acceptor records by the bid they came from, the workers, and the POSTs sent. */
  datatype World = World(records: map<Uuid, Record>, workers: seq<Worker>, posts: seq<Post>)

  const START := World(map[], [], [])

  /** A worker that crashes is one that takes no further step. */
  datatype Step =
    | DoCreate(bid: Uuid, swapId: string, key: Uuid, expiresAt: Option<int>)
    | DoRefuse(bid: Uuid, swapId: string, reason: string, expiresAt: Option<int>)
    | DoSelect(bid: Uuid, now: int)
    | DoLease(w: nat)
    | DoRecover(w: nat, observed: Option<Observation>)
    | DoSend(w: nat)
    | DoPost(w: nat, reply: Reply)
    | DoVerify(w: nat, observed: Option<Observation>)
    | DoConclude(w: nat)
    | DoEvent(bid: Uuid, event: Event)
    | DoSweep(bid: Uuid, now: int, lookup: Lookup)

  /** Generated keys are fresh. */
  ghost predicate Enabled(w: World, s: Step) {
    s.DoCreate? ==> forall b | b in w.records :: w.records[b].acceptKey != Some(s.key)
  }

  /** The token was verified: an intention to accept with its own key. */
  function NewRecord(s: Step): Record
    requires s.DoCreate?
  {
    Record(s.swapId, Some(s.key), A.SUBMITTED, None, s.expiresAt, 0, None, None)
  }

  function RejectedRecord(s: Step): Record
    requires s.DoRefuse?
  {
    Record(s.swapId, None, A.REJECTED, Some(s.reason), s.expiresAt, 0, Some(s.reason), None)
  }

  /** The bid of a record is unique: a second record for it is an integrity error. */
  function Added(w: World, bid: Uuid, r: Record): World {
    if bid in w.records then w else w.(records := w.records[bid := r])
  }

  function WorkerStep(r: Record, p: Phase, s: Step): (Record, Phase) {
    match (s, p)
    case (DoLease(_), Selected(now)) => Lease(r, now)
    case (DoRecover(_, o), Leased(now)) =>
      if r.attempts > 0 then Inspect(r, o, Cleared(now)) else (r, Cleared(now))
    case (DoSend(_), Cleared(now)) => Send(r, now)
    case (DoPost(_, reply), InFlight(now)) => (r, Replied(now, reply))
    case (DoVerify(_, o), Replied(now, reply)) =>
      if reply.Refused? then Inspect(r, o, Verified(now, reply)) else (r, Verified(now, reply))
    case (DoConclude(_), Verified(now, reply)) => (Conclude(r, now, reply), Over)
    case _ => (r, p)
  }

  function Moved(w: World, i: nat, s: Step): World {
    if i < |w.workers| && w.workers[i].bid in w.records then
      var bid := w.workers[i].bid;
      var (r, p) := WorkerStep(w.records[bid], w.workers[i].phase, s);
      w.(records := w.records[bid := r], workers := w.workers[i := Worker(bid, p)],
         posts := if s.DoPost? && w.workers[i].phase.InFlight? && r.acceptKey.Some?
                  then w.posts + [Post(bid, r.acceptKey.value, r.swapId)] else w.posts)
    else w
  }

  function Next(w: World, s: Step): World {
    match s
    case DoCreate(bid, _, _, _) => Added(w, bid, NewRecord(s))
    case DoRefuse(bid, _, _, _) => Added(w, bid, RejectedRecord(s))
    case DoSelect(bid, now) =>
      if bid in w.records && Workable(w.records[bid], now)
      then w.(workers := w.workers + [Worker(bid, Selected(now))]) else w
    case DoEvent(bid, e) =>
      if bid in w.records then w.(records := w.records[bid := AfterFact(w.records[bid], e)]) else w
    case DoSweep(bid, now, lookup) =>
      if bid in w.records then w.(records := w.records[bid := SweepRecord(w.records[bid], now, lookup)]) else w
    case DoLease(i) => Moved(w, i, s)
    case DoRecover(i, _) => Moved(w, i, s)
    case DoSend(i) => Moved(w, i, s)
    case DoPost(i, _) => Moved(w, i, s)
    case DoVerify(i, _) => Moved(w, i, s)
    case DoConclude(i) => Moved(w, i, s)
  }

  function Execute(steps: seq<Step>): World {
    if steps == [] then START else Next(Execute(steps[..|steps| - 1]), steps[|steps| - 1])
  }

  ghost predicate Legal(steps: seq<Step>) {
    forall i | 0 <= i < |steps| :: Enabled(Execute(steps[..i]), steps[i])
  }

  lemma LegalPrefix(steps: seq<Step>, n: nat)
    requires Legal(steps) && n <= |steps|
    ensures Legal(steps[..n])
  {
    forall i | 0 <= i < n ensures Enabled(Execute(steps[..n][..i]), steps[..n][i]) {
      assert steps[..n][..i] == steps[..i];
    }
  }

  // ---- One key per bid --------------------------------------------------

  ghost predicate SameIdentity(r: Record, r': Record) {
    r'.acceptKey == r.acceptKey && r'.swapId == r.swapId
  }

  ghost predicate Inv(w: World) {
    && (forall p | p in w.posts :: p.bid in w.records
          && w.records[p.bid].acceptKey == Some(p.key) && w.records[p.bid].swapId == p.swapId)
    && (forall a, b | a in w.records && b in w.records && a != b && w.records[a].acceptKey.Some? ::
          w.records[a].acceptKey != w.records[b].acceptKey)
  }

  lemma StepKeepsRecords(w: World, s: Step, b: Uuid)
    requires b in w.records
    ensures b in Next(w, s).records && SameIdentity(w.records[b], Next(w, s).records[b])
  {
  }

  lemma NewRecordsOfStep(w: World, s: Step, b: Uuid)
    requires b in Next(w, s).records && b !in w.records
    ensures (s.DoCreate? && s.bid == b && Next(w, s).records[b] == NewRecord(s))
            || (s.DoRefuse? && s.bid == b && Next(w, s).records[b] == RejectedRecord(s))
  {
  }

  lemma StepKeepsInv(w: World, s: Step)
    requires Inv(w) && Enabled(w, s)
    ensures Inv(Next(w, s))
  {
    var w' := Next(w, s);
    forall p | p in w'.posts
      ensures p.bid in w'.records && w'.records[p.bid].acceptKey == Some(p.key) && w'.records[p.bid].swapId == p.swapId
    {
      if p in w.posts {
        StepKeepsRecords(w, s, p.bid);
      }
    }
    KeysStayDistinct(w, s);
  }

  lemma KeysStayDistinct(w: World, s: Step)
    requires Inv(w) && Enabled(w, s)
    ensures var w' := Next(w, s);
            forall a, b | a in w'.records && b in w'.records && a != b && w'.records[a].acceptKey.Some? ::
              w'.records[a].acceptKey != w'.records[b].acceptKey
  {
    var w' := Next(w, s);
    forall b | b in w'.records
      ensures if b in w.records then SameIdentity(w.records[b], w'.records[b])
              else (s.DoCreate? && b == s.bid && w'.records[b].acceptKey == Some(s.key))
                   || (s.DoRefuse? && w'.records[b].acceptKey.None?)
    {
      if b in w.records {
        StepKeepsRecords(w, s, b);
      } else {
        NewRecordsOfStep(w, s, b);
      }
    }
  }

  lemma {:induction false} EveryRunKeepsInv(steps: seq<Step>)
    requires Legal(steps)
    ensures Inv(Execute(steps))
  {
    if steps != [] {
      var n := |steps| - 1;
      LegalPrefix(steps, n);
      EveryRunKeepsInv(steps[..n]);
      StepKeepsInv(Execute(steps[..n]), steps[n]);
    }
  }

  // ---- Main results -----------------------------------------------------

  /** All POSTs for a bid are the same, no two bids share a key, and an invalid token is never sent. */
  lemma OneAcceptancePerBid(steps: seq<Step>)
    requires Legal(steps)
    ensures var w := Execute(steps);
            && (forall p, q | p in w.posts && q in w.posts :: p.bid == q.bid <==> p.key == q.key)
            && (forall p, q | p in w.posts && q in w.posts && p.bid == q.bid :: p == q)
            && (forall p | p in w.posts :: p.bid in w.records && w.records[p.bid].acceptKey == Some(p.key))
  {
    EveryRunKeepsInv(steps);
  }

  ghost predicate IsFinal(w: World, b: Uuid) {
    b in w.records && Final(w.records[b].status)
  }

  /** A settlement that arrives after another final status. */
  predicate LateSettlement(s: Step, b: Uuid) {
    s.DoEvent? && s.bid == b && s.event.fact.SwapSettled?
  }

  lemma FinalStepKeepsStatus(w: World, s: Step, b: Uuid)
    requires IsFinal(w, b)
    ensures IsFinal(Next(w, s), b)
    ensures Next(w, s).records[b].status == (if LateSettlement(s, b) then A.SETTLED else w.records[b].status)
    ensures Next(w, s).records[b].attempts == w.records[b].attempts
  {
  }

  ghost predicate KeptFrom(steps: seq<Step>, n: nat, b: Uuid)
    requires n <= |steps|
  {
    && IsFinal(Execute(steps[..n]), b) && IsFinal(Execute(steps), b)
    && Execute(steps).records[b].attempts == Execute(steps[..n]).records[b].attempts
    && (Execute(steps).records[b].status == Execute(steps[..n]).records[b].status
        || (Execute(steps).records[b].status == A.SETTLED && exists i | n <= i < |steps| :: LateSettlement(steps[i], b)))
  }

  lemma OneMoreStepKeeps(steps: seq<Step>, n: nat, b: Uuid)
    requires n < |steps| && KeptFrom(steps[..|steps| - 1], n, b)
    ensures KeptFrom(steps, n, b)
  {
    var l := |steps| - 1;
    var w := Execute(steps[..l]);
    assert steps[..l][..n] == steps[..n];
    assert Execute(steps) == Next(w, steps[l]);
    FinalStepKeepsStatus(w, steps[l], b);
    if w.records[b].status != Execute(steps[..n]).records[b].status {
      var i :| n <= i < l && LateSettlement(steps[..l][i], b);
      assert LateSettlement(steps[i], b);
    }
  }

  /**
   * From any point of a run on, a final status stays, whatever workers that are still
   * under way go on to do; only a settlement from the wallet replaces another final
   * status, and no further attempt is started.
   */
  lemma {:induction false} FinalStatusIsAbsorbing(steps: seq<Step>, n: nat, b: Uuid)
    requires n <= |steps| && IsFinal(Execute(steps[..n]), b)
    ensures KeptFrom(steps, n, b)
  {
    if n == |steps| {
      assert steps[..n] == steps;
    } else {
      var before := steps[..|steps| - 1];
      assert before[..n] == steps[..n];
      FinalStatusIsAbsorbing(before, n, b);
      OneMoreStepKeeps(steps, n, b);
    }
  }

  /** What a finished attempt leaves to do: a retry when its wait is over, and nothing else. */
  lemma ConcludedAttempt(r: Record, now: int, reply: Reply, later: int)
    requires r.acceptKey.Some? && r.status == A.ACCEPT_SUBMITTED
    ensures var r' := Conclude(r, now, reply);
            && (Final(r'.status) <==> reply.Refused?)
            && (Workable(r', later) <==> reply.Retry? && later >= now + RetryDelay(r.attempts, reply.retryAfter) * SECOND)
  {
  }

  // ---- After the 202 ----------------------------------------------------

  function PostsOf(posts: seq<Post>, b: Uuid): nat {
    if posts == [] then 0
    else PostsOf(posts[..|posts| - 1], b) + (if posts[|posts| - 1].bid == b then 1 else 0)
  }

  function Continue(w: World, more: seq<Step>): World {
    if more == [] then w else Next(Continue(w, more[..|more| - 1]), more[|more| - 1])
  }

  lemma {:induction false} ExecuteContinues(steps: seq<Step>, more: seq<Step>)
    ensures Execute(steps + more) == Continue(Execute(steps), more)
  {
    if more == [] {
      assert steps + [] == steps;
    } else {
      var n := |more| - 1;
      assert (steps + more)[..|steps| + n] == steps + more[..n];
      assert (steps + more)[|steps| + n] == more[n];
      ExecuteContinues(steps, more[..n]);
    }
  }

  predicate InFlightPhase(p: Phase) { p.InFlight? || p.Replied? || p.Verified? }

  /** The record has its 202, and no attempt on it is under way. */
  ghost predicate Acknowledged(w: World, b: Uuid) {
    && b in w.records && w.records[b].status == A.ACCEPT_SUBMITTED && w.records[b].error.None?
    && forall i | 0 <= i < |w.workers| && w.workers[i].bid == b :: !InFlightPhase(w.workers[i].phase)
  }

  /** A worker that was sent off before the 202 and can still come to its POST. */
  ghost predicate Underway(r: Record, p: Phase) {
    p.Leased? || p.Cleared? || (p.Selected? && Elapsed(r.retryAt, p.now))
  }

  ghost predicate CanStillSend(w: World, b: Uuid) {
    && b in w.records && w.records[b].acceptKey.Some?
    && exists i | 0 <= i < |w.workers| :: w.workers[i].bid == b && Underway(w.records[b], w.workers[i].phase)
  }

  /** No worker will come to a POST of this bid any more. */
  ghost predicate NoMorePosts(w: World, b: Uuid) {
    && b in w.records
    && var r := w.records[b];
    || r.acceptKey.None?
    || (Final(r.status)
        && forall i | 0 <= i < |w.workers| && w.workers[i].bid == b :: !InFlightPhase(w.workers[i].phase))
    || (Waiting(r)
        && forall i | 0 <= i < |w.workers| && w.workers[i].bid == b :: Spent(r, w.workers[i].phase))
  }

  predicate Waiting(r: Record) {
    r.status == A.PROPOSED || (r.status == A.ACCEPT_SUBMITTED && r.error.None?)
  }

  predicate Spent(r: Record, p: Phase) {
    p.Over? || (p.Selected? && !Elapsed(r.retryAt, p.now))
  }

  lemma PostsOfOneMore(posts: seq<Post>, p: Post, b: Uuid)
    ensures PostsOf(posts + [p], b) == PostsOf(posts, b) + (if p.bid == b then 1 else 0)
  {
    assert (posts + [p])[..|posts|] == posts;
  }

  lemma NoMorePostsStays(w: World, s: Step, b: Uuid)
    requires NoMorePosts(w, b)
    ensures NoMorePosts(Next(w, s), b)
  {
  }

  lemma NoMorePostsSendsNothing(w: World, s: Step, b: Uuid)
    requires NoMorePosts(w, b)
    ensures PostsOf(Next(w, s).posts, b) == PostsOf(w.posts, b)
  {
    if s.DoPost? && Next(w, s).posts != w.posts {
      PostsOfOneMore(w.posts, Next(w, s).posts[|w.posts|], b);
    }
  }

  lemma {:induction false} NoMorePostsForever(w: World, more: seq<Step>, b: Uuid)
    requires NoMorePosts(w, b)
    ensures NoMorePosts(Continue(w, more), b) && PostsOf(Continue(w, more).posts, b) == PostsOf(w.posts, b)
  {
    if more != [] {
      var n := |more| - 1;
      NoMorePostsForever(w, more[..n], b);
      NoMorePostsStays(Continue(w, more[..n]), more[n], b);
      NoMorePostsSendsNothing(Continue(w, more[..n]), more[n], b);
    }
  }

  // ---- The one way to another POST --------------------------------------

  /** A swap-proposed reaches the acceptor, and worker i takes its remaining steps. */
  function Detour(b: Uuid, i: nat, now: int): seq<Step> {
    [DoEvent(b, Event(SwapProposed, None, None, Some(now + 1))), DoLease(i)]
    + [DoRecover(i, None), DoSend(i)] + [DoPost(i, Accepted202)]
  }

  /** Worker i is at this phase, and the record was put back to proposed. */
  ghost predicate Reopened(w: World, b: Uuid, i: nat, now: int, posts: seq<Post>) {
    && b in w.records && i < |w.workers| && w.workers[i].bid == b && w.posts == posts
    && var r := w.records[b];
    && r.acceptKey.Some? && r.status == A.PROPOSED && r.expiresAt == Some(now + 1)
  }

  lemma DetourLeases(w: World, b: Uuid, i: nat, now: int)
    requires b in w.records && i < |w.workers| && w.workers[i].bid == b && w.records[b].acceptKey.Some?
    requires !Final(w.records[b].status) && Underway(w.records[b], w.workers[i].phase) && w.workers[i].phase.now == now
    ensures var w2 := Reopening(w, b, i, now);
            Reopened(w2, b, i, now, w.posts) && w2.workers[i].phase in {Leased(now), Cleared(now)}
  {
  }

  lemma DetourSends(w: World, b: Uuid, i: nat, now: int)
    requires Reopened(w, b, i, now, w.posts) && w.workers[i].phase in {Leased(now), Cleared(now)}
    ensures var w2 := Next(Next(w, DoRecover(i, None)), DoSend(i));
            && b in w2.records && i < |w2.workers| && w2.workers[i] == Worker(b, InFlight(now))
            && w2.records[b].acceptKey.Some? && w2.posts == w.posts
  {
  }

  lemma DetourPosts(w: World, b: Uuid, i: nat, now: int)
    requires b in w.records && i < |w.workers| && w.workers[i].bid == b && w.records[b].acceptKey.Some?
    requires !Final(w.records[b].status) && Underway(w.records[b], w.workers[i].phase) && w.workers[i].phase.now == now
    ensures PostsOf(Continue(w, Detour(b, i, now)).posts, b) == PostsOf(w.posts, b) + 1
  {
    DetourContinues(w, b, i, now);
    DetourLeases(w, b, i, now);
    var w2 := Reopening(w, b, i, now);
    DetourSends(w2, b, i, now);
    LastStepPosts(Next(Next(w2, DoRecover(i, None)), DoSend(i)), b, i, now);
  }

  function Reopening(w: World, b: Uuid, i: nat, now: int): World {
    Next(Next(w, DoEvent(b, Event(SwapProposed, None, None, Some(now + 1)))), DoLease(i))
  }

  lemma DetourContinues(w: World, b: Uuid, i: nat, now: int)
    ensures Continue(w, Detour(b, i, now))
            == Next(Next(Next(Reopening(w, b, i, now), DoRecover(i, None)), DoSend(i)), DoPost(i, Accepted202))
  {
    var event := DoEvent(b, Event(SwapProposed, None, None, Some(now + 1)));
    ContinueOn(w, [event, DoLease(i)], [DoRecover(i, None), DoSend(i)]);
    ContinueOn(w, [event, DoLease(i)] + [DoRecover(i, None), DoSend(i)], [DoPost(i, Accepted202)]);
    ContinueTwo(w, event, DoLease(i));
    ContinueTwo(Reopening(w, b, i, now), DoRecover(i, None), DoSend(i));
    ContinueOne(Next(Next(Reopening(w, b, i, now), DoRecover(i, None)), DoSend(i)), DoPost(i, Accepted202));
  }

  lemma LastStepPosts(w: World, b: Uuid, i: nat, now: int)
    requires b in w.records && i < |w.workers| && w.workers[i] == Worker(b, InFlight(now)) && w.records[b].acceptKey.Some?
    ensures PostsOf(Next(w, DoPost(i, Accepted202)).posts, b) == PostsOf(w.posts, b) + 1
  {
    PostsOfOneMore(w.posts, Post(b, w.records[b].acceptKey.value, w.records[b].swapId), b);
  }

  lemma ContinueOne(w: World, s: Step)
    ensures Continue(w, [s]) == Next(w, s)
  {
    assert [s][..0] == [];
    assert Continue(w, []) == w;
  }

  lemma ContinueTwo(w: World, s: Step, t: Step)
    ensures Continue(w, [s, t]) == Next(Next(w, s), t)
  {
    assert [s, t][..1] == [s];
    ContinueOne(w, s);
  }

  lemma {:induction false} ContinueOn(w: World, more: seq<Step>, rest: seq<Step>)
    ensures Continue(w, more + rest) == Continue(Continue(w, more), rest)
  {
    if rest == [] {
      assert more + [] == more;
    } else {
      var n := |rest| - 1;
      assert (more + rest)[..|more| + n] == more + rest[..n];
      assert (more + rest)[|more| + n] == rest[n];
      ContinueOn(w, more, rest[..n]);
    }
  }

  /**
   * After a 202 with no attempt under way, no continuation of the run issues another
   * POST of the bid, if and only if no worker sent off earlier is still on its way. The
   * one that is needs a swap-proposed addressed to the acceptor, and repeats the same POST.
   */
  lemma AcknowledgedIsNotSentIff(steps: seq<Step>, b: Uuid)
    requires Acknowledged(Execute(steps), b)
    ensures (forall more: seq<Step> :: PostsOf(Execute(steps + more).posts, b) == PostsOf(Execute(steps).posts, b))
            <==> !CanStillSend(Execute(steps), b)
  {
    var w := Execute(steps);
    if CanStillSend(w, b) {
      var i :| 0 <= i < |w.workers| && w.workers[i].bid == b && Underway(w.records[b], w.workers[i].phase);
      var d := Detour(b, i, w.workers[i].phase.now);
      DetourPosts(w, b, i, w.workers[i].phase.now);
      ExecuteContinues(steps, d);
      assert PostsOf(Execute(steps + d).posts, b) != PostsOf(Execute(steps).posts, b);
    } else {
      NobodyIsOnTheWay(w, b);
      forall more: seq<Step> ensures PostsOf(Execute(steps + more).posts, b) == PostsOf(Execute(steps).posts, b) {
        NoMorePostsForever(w, more, b);
        ExecuteContinues(steps, more);
      }
    }
  }

  lemma NobodyIsOnTheWay(w: World, b: Uuid)
    requires Acknowledged(w, b) && !CanStillSend(w, b)
    ensures NoMorePosts(w, b)
  {
  }

  // ---- Two workers on one bid -------------------------------------------

  /** Two workers select the bid, and the first one has its 202 before the second takes the lease. */
  function TwoSelected(): seq<Step> {
    [DoCreate(1, "s", 7, None), DoSelect(1, 0)] + [DoSelect(1, 0), DoLease(0)]
  }

  function FirstAcknowledged(): seq<Step> {
    [DoRecover(0, None), DoSend(0)] + [DoPost(0, Accepted202), DoVerify(0, None)] + [DoConclude(0)]
  }

  const INTENDED := Record("s", Some(7), A.SUBMITTED, None, None, 0, None, None)
  const ONE_SELECTED := World(map[1 := INTENDED], [Worker(1, Selected(0))], [])
  const ONE_LEASED := World(map[1 := INTENDED.(retryAt := Some(ACCEPT_LEASE))], [Worker(1, Leased(0)), Worker(1, Selected(0))], [])

  const SENT := Record("s", Some(7), A.ACCEPT_SUBMITTED, None, None, 1, Some("WALLET_IN_FLIGHT"), Some(ACCEPT_LEASE))
  const ONE_SENT := World(map[1 := SENT], [Worker(1, InFlight(0)), Worker(1, Selected(0))], [])
  const ONE_REPLIED := World(map[1 := SENT], [Worker(1, Verified(0, Accepted202)), Worker(1, Selected(0))], [Post(1, 7, "s")])
  const ONE_DONE := World(map[1 := SENT.(error := None, retryAt := None)], [Worker(1, Over), Worker(1, Selected(0))], [Post(1, 7, "s")])

  lemma OneIsSelected()
    ensures Next(Next(START, DoCreate(1, "s", 7, None)), DoSelect(1, 0)) == ONE_SELECTED
  {
    assert Next(START, DoCreate(1, "s", 7, None)) == World(map[1 := INTENDED], [], []);
  }

  lemma OneIsLeased()
    ensures Next(Next(ONE_SELECTED, DoSelect(1, 0)), DoLease(0)) == ONE_LEASED
  {
    assert Next(ONE_SELECTED, DoSelect(1, 0)) == World(map[1 := INTENDED], [Worker(1, Selected(0)), Worker(1, Selected(0))], []);
  }

  lemma OneIsSent()
    ensures Next(Next(ONE_LEASED, DoRecover(0, None)), DoSend(0)) == ONE_SENT
  {
    assert Next(ONE_LEASED, DoRecover(0, None)) == ONE_LEASED.(workers := [Worker(1, Cleared(0)), Worker(1, Selected(0))]);
  }

  lemma OneIsReplied()
    ensures Next(Next(ONE_SENT, DoPost(0, Accepted202)), DoVerify(0, None)) == ONE_REPLIED
  {
    assert Next(ONE_SENT, DoPost(0, Accepted202))
        == World(map[1 := SENT], [Worker(1, Replied(0, Accepted202)), Worker(1, Selected(0))], [Post(1, 7, "s")]);
  }

  lemma TwoSelectedReach()
    ensures Continue(START, TwoSelected()) == ONE_LEASED
  {
    ContinueOn(START, [DoCreate(1, "s", 7, None), DoSelect(1, 0)], [DoSelect(1, 0), DoLease(0)]);
    ContinueTwo(START, DoCreate(1, "s", 7, None), DoSelect(1, 0));
    OneIsSelected();
    ContinueTwo(ONE_SELECTED, DoSelect(1, 0), DoLease(0));
    OneIsLeased();
  }

  lemma FirstIsSent()
    ensures Continue(ONE_LEASED, [DoRecover(0, None), DoSend(0)] + [DoPost(0, Accepted202), DoVerify(0, None)]) == ONE_REPLIED
  {
    ContinueOn(ONE_LEASED, [DoRecover(0, None), DoSend(0)], [DoPost(0, Accepted202), DoVerify(0, None)]);
    ContinueTwo(ONE_LEASED, DoRecover(0, None), DoSend(0));
    OneIsSent();
    ContinueTwo(ONE_SENT, DoPost(0, Accepted202), DoVerify(0, None));
    OneIsReplied();
  }

  lemma FirstIsAcknowledged()
    ensures Continue(ONE_LEASED, FirstAcknowledged()) == ONE_DONE
  {
    ContinueOn(ONE_LEASED, [DoRecover(0, None), DoSend(0)] + [DoPost(0, Accepted202), DoVerify(0, None)], [DoConclude(0)]);
    FirstIsSent();
    ContinueOne(ONE_REPLIED, DoConclude(0));
  }

  lemma OneDoneIsReached()
    ensures Execute(TwoSelected() + FirstAcknowledged()) == ONE_DONE
  {
    assert Execute([]) == START && [] + TwoSelected() == TwoSelected();
    ExecuteContinues([], TwoSelected());
    TwoSelectedReach();
    ExecuteContinues(TwoSelected(), FirstAcknowledged());
    FirstIsAcknowledged();
  }

  lemma OneDoneIsAcknowledged()
    ensures Acknowledged(ONE_DONE, 1) && CanStillSend(ONE_DONE, 1) && PostsOf(ONE_DONE.posts, 1) == 1
  {
    assert ONE_DONE.workers[1] == Worker(1, Selected(0));
    PostsOfOneMore([], Post(1, 7, "s"), 1);
    assert [] + [Post(1, 7, "s")] == ONE_DONE.posts;
  }

  lemma LegalWithoutCreation(s: Step, more: seq<Step>)
    requires Enabled(START, s) && forall i | 0 <= i < |more| :: !more[i].DoCreate?
    ensures Legal([s] + more)
  {
    assert ([s] + more)[..0] == [];
  }

  /** A legal run after whose 202 a worker is still on its way: a swap-proposed lets it repeat the POST. */
  lemma AcknowledgedIsSentAgain()
    ensures var steps := TwoSelected() + FirstAcknowledged();
            && Acknowledged(Execute(steps), 1) && CanStillSend(Execute(steps), 1)
            && Legal(steps + Detour(1, 1, 0))
            && PostsOf(Execute(steps).posts, 1) == 1 && PostsOf(Execute(steps + Detour(1, 1, 0)).posts, 1) == 2
  {
    var steps, d := TwoSelected() + FirstAcknowledged(), Detour(1, 1, 0);
    OneDoneIsReached();
    OneDoneIsAcknowledged();
    ExecuteContinues(steps, d);
    DetourPosts(ONE_DONE, 1, 1, 0);
    TwoWorkersLegal();
  }

  lemma TwoWorkersLegal()
    ensures Legal(TwoSelected() + FirstAcknowledged() + Detour(1, 1, 0))
  {
    var steps := TwoSelected() + FirstAcknowledged() + Detour(1, 1, 0);
    LegalWithoutCreation(DoCreate(1, "s", 7, None), steps[1..]);
    assert [DoCreate(1, "s", 7, None)] + steps[1..] == steps;
  }
}
