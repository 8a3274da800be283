/** Making room: which awake sandboxes are put to sleep so that one more can wake
    (cli/internal/sandbox/limits.go). */
module Room {
  import opened Common

  /** One sandbox that is running or paused. */
  datatype AwakeBox = AwakeBox(id: string, owner: string, title: string, quiet: int, busy: bool)

  /** Waking refused: every sandbox holding a slot is working. */
  datatype RoomRefusal = RoomRefusal(perPerson: bool, limit: int, holders: seq<AwakeBox>)

  datatype RoomPlan = Evict(boxes: seq<AwakeBox>) | Refuse(refusal: RoomRefusal)

  /** The list comes from a map of containers, so no identifier occurs twice. */
  ghost predicate DistinctIds(boxes: seq<AwakeBox>) {
    forall i, j :: 0 <= i < j < |boxes| ==> boxes[i].id != boxes[j].id
  }

  /** The boxes of a list. */
  function All(boxes: seq<AwakeBox>): (r: set<AwakeBox>)
  {
    if boxes == [] then {} else All(boxes[..|boxes|-1]) + {boxes[|boxes|-1]}
  }

  function Owned(boxes: set<AwakeBox>, owner: string): set<AwakeBox> {
    set b | b in boxes && b.owner == owner
  }

  function Idle(boxes: set<AwakeBox>): set<AwakeBox> {
    set b | b in boxes && !b.busy
  }

  predicate CapsPerson(owner: string, perPerson: int) {
    owner != "" && perPerson > 0
  }

  /** Putting `slept` to sleep is allowed, and leaves a free slot under both caps. */
  ghost predicate MakesRoom(awake: set<AwakeBox>, owner: string, perPerson: int, perNode: int, slept: set<AwakeBox>) {
    && slept <= Idle(awake)
    && (CapsPerson(owner, perPerson) ==> |Owned(awake, owner) - slept| < perPerson)
    && (perNode > 0 ==> |awake - slept| < perNode)
  }

  /** `first` was taken from `candidates` least recently used first: whatever idle
      candidate was left has been quiet no longer. */
  ghost predicate OldestFirst(first: set<AwakeBox>, candidates: set<AwakeBox>, taken: set<AwakeBox>) {
    && first <= candidates
    && forall e, c :: e in first && c in candidates - taken && !c.busy ==> e.quiet >= c.quiet
  }

  /** Some were the person's own, taken for the person's cap; the others anyone's. */
  ghost predicate TwoPhases(awake: set<AwakeBox>, owner: string, perPerson: int, mine: set<AwakeBox>, evicted: set<AwakeBox>) {
    && mine <= evicted
    && (mine != {} ==> CapsPerson(owner, perPerson))
    && OldestFirst(mine, Owned(awake, owner), mine)
    && OldestFirst(evicted - mine, awake, evicted)
  }

  /** An eviction that makes room, is as small as any that does, and takes the
      person's own sandboxes and then anyone's, each time the oldest first. */
  ghost predicate GoodEviction(awake: set<AwakeBox>, owner: string, perPerson: int, perNode: int, evict: seq<AwakeBox>) {
    && Lists(evict, All(evict))
    && MakesRoom(awake, owner, perPerson, perNode, All(evict))
    && (forall slept :: MakesRoom(awake, owner, perPerson, perNode, slept) ==> |evict| <= |slept|)
    && (exists mine :: TwoPhases(awake, owner, perPerson, mine, All(evict)))
  }

  /** The boxes of a set, each listed once. */
  ghost predicate Lists(boxes: seq<AwakeBox>, members: set<AwakeBox>) {
    All(boxes) == members && |boxes| == |members|
  }

  /** A refusal names exactly the working sandboxes that hold the slots of the cap
      it reports, at least as many as the cap. */
  ghost predicate GoodRefusal(awake: set<AwakeBox>, owner: string, perPerson: int, perNode: int, refusal: RoomRefusal) {
    && (refusal.perPerson ==> CapsPerson(owner, perPerson) && refusal.limit == perPerson)
    && (!refusal.perPerson ==> perNode > 0 && refusal.limit == perNode)
    && Lists(refusal.holders, (if refusal.perPerson then Owned(awake, owner) else awake) - Idle(awake))
    && |refusal.holders| >= refusal.limit
  }

  /** What `planRoom` promises: it refuses exactly when no set of idle sandboxes
      would make room. */
  ghost predicate IsPlan(awake: set<AwakeBox>, owner: string, perPerson: int, perNode: int, plan: RoomPlan) {
    && (plan.Refuse? <==> !exists slept :: MakesRoom(awake, owner, perPerson, perNode, slept))
    && (plan.Evict? ==> GoodEviction(awake, owner, perPerson, perNode, plan.boxes))
    && (plan.Refuse? ==> GoodRefusal(awake, owner, perPerson, perNode, plan.refusal))
  }

  /* ── the stable sort by quiet, longest first ── */

  ghost predicate OldestFirstOrder(boxes: seq<AwakeBox>) {
    forall i, j :: 0 <= i < j < |boxes| ==> boxes[i].quiet >= boxes[j].quiet
  }

  function InsertByQuiet(box: AwakeBox, boxes: seq<AwakeBox>): (r: seq<AwakeBox>)
    ensures multiset(r) == multiset{box} + multiset(boxes)
  {
    if boxes == [] || box.quiet >= boxes[0].quiet then
      [box] + boxes
    else
      assert boxes == [boxes[0]] + boxes[1..];
      [boxes[0]] + InsertByQuiet(box, boxes[1..])
  }

  function SortByQuiet(boxes: seq<AwakeBox>): (r: seq<AwakeBox>)
    ensures multiset(r) == multiset(boxes)
  {
    if boxes == [] then
      []
    else
      assert boxes == [boxes[0]] + boxes[1..];
      InsertByQuiet(boxes[0], SortByQuiet(boxes[1..]))
  }

  lemma {:induction false} InsertKeepsOrder(box: AwakeBox, boxes: seq<AwakeBox>)
    requires OldestFirstOrder(boxes)
    ensures OldestFirstOrder(InsertByQuiet(box, boxes))
  {
    if boxes != [] && box.quiet < boxes[0].quiet {
      InsertKeepsOrder(box, boxes[1..]);
      var rest := InsertByQuiet(box, boxes[1..]);
      forall j | 0 <= j < |rest|
        ensures boxes[0].quiet >= rest[j].quiet
      {
        assert rest[j] in multiset(rest);
        assert rest[j] == box || rest[j] in boxes[1..];
      }
    }
  }

  lemma {:induction false} SortOrders(boxes: seq<AwakeBox>)
    ensures OldestFirstOrder(SortByQuiet(boxes))
  {
    if boxes != [] {
      SortOrders(boxes[1..]);
      InsertKeepsOrder(boxes[0], SortByQuiet(boxes[1..]));
    }
  }

  /* ── lists without repetition, by position ── */

  ghost predicate NoRepeats(boxes: seq<AwakeBox>) {
    forall i :: 0 <= i < |boxes| ==> boxes[i] !in boxes[..i]
  }

  /** A permutation of a list with distinct identifiers repeats nothing. */
  lemma PermutedNoRepeats(a: seq<AwakeBox>, b: seq<AwakeBox>)
    requires DistinctIds(a) && multiset(a) == multiset(b)
    ensures NoRepeats(b)
  {
    forall i | 0 <= i < |b|
      ensures b[i] !in b[..i]
    {
      OccursOnce(a, b[i]);
      assert b == b[..i] + [b[i]] + b[i+1..];
      assert multiset(b) == multiset(b[..i]) + multiset{b[i]} + multiset(b[i+1..]);
    }
  }

  lemma {:induction false} OccursOnce(s: seq<AwakeBox>, x: AwakeBox)
    requires DistinctIds(s)
    ensures multiset(s)[x] <= 1
  {
    if s != [] {
      OccursOnce(s[1..], x);
      assert s == [s[0]] + s[1..];
      if s[0] == x {
        assert x !in s[1..];
        assert multiset(s[1..])[x] == 0;
      }
    }
  }

  lemma {:induction false} MemberOfAll(boxes: seq<AwakeBox>, b: AwakeBox)
    ensures b in All(boxes) <==> b in boxes
  {
    if boxes != [] {
      var n := |boxes| - 1;
      assert boxes == boxes[..n] + [boxes[n]];
      MemberOfAll(boxes[..n], b);
    }
  }

  lemma SameAll(a: seq<AwakeBox>, b: seq<AwakeBox>)
    requires multiset(a) == multiset(b)
    ensures All(a) == All(b)
  {
    forall x
      ensures x in All(a) <==> x in All(b)
    {
      MemberOfAll(a, x);
      MemberOfAll(b, x);
      assert x in a <==> x in multiset(a);
      assert x in b <==> x in multiset(b);
    }
  }

  lemma AllAppend(boxes: seq<AwakeBox>, b: AwakeBox)
    ensures All(boxes + [b]) == All(boxes) + {b}
  {
    assert (boxes + [b])[..|boxes|] == boxes;
  }

  lemma ListAppend(boxes: seq<AwakeBox>, members: set<AwakeBox>, b: AwakeBox)
    requires Lists(boxes, members) && b !in members
    ensures Lists(boxes + [b], members + {b})
  {
    AllAppend(boxes, b);
  }

  /** A list of candidates: every member once, the longest quiet first. */
  ghost predicate Candidates(boxes: seq<AwakeBox>, members: set<AwakeBox>) {
    NoRepeats(boxes) && OldestFirstOrder(boxes) && All(boxes) == members
  }

  /** The members before position i. */
  ghost function Before(boxes: seq<AwakeBox>, i: nat): set<AwakeBox>
    requires i <= |boxes|
  {
    All(boxes[..i])
  }

  lemma BeforeNext(boxes: seq<AwakeBox>, members: set<AwakeBox>, i: nat)
    requires Candidates(boxes, members) && i < |boxes|
    ensures Before(boxes, i + 1) == Before(boxes, i) + {boxes[i]}
    ensures boxes[i] !in Before(boxes, i) && boxes[i] in members
  {
    assert boxes[..i+1][..i] == boxes[..i];
    MemberOfAll(boxes[..i], boxes[i]);
    MemberOfAll(boxes, boxes[i]);
  }

  lemma BeforeEnds(boxes: seq<AwakeBox>, members: set<AwakeBox>)
    requires Candidates(boxes, members)
    ensures Before(boxes, 0) == {} && Before(boxes, |boxes|) == members
  {
    assert boxes[..|boxes|] == boxes;
  }

  /** Everything before a position has been quiet at least as long as everything after it. */
  lemma BeforeIsOlder(boxes: seq<AwakeBox>, members: set<AwakeBox>, i: nat, e: AwakeBox, c: AwakeBox)
    requires Candidates(boxes, members) && i <= |boxes|
    requires e in Before(boxes, i) && c in members - Before(boxes, i)
    ensures e.quiet >= c.quiet
  {
    MemberOfAll(boxes[..i], e);
    MemberOfAll(boxes[..i], c);
    MemberOfAll(boxes, c);
    var p :| 0 <= p < i && boxes[..i][p] == e;
    var q :| 0 <= q < |boxes| && boxes[q] == c;
    assert forall r :: 0 <= r < i ==> boxes[..i][r] == boxes[r];
  }

  /* ── the closures of planRoom ── */

  /** The chosen identifiers are those of the boxes taken. */
  ghost predicate Chose(boxes: set<AwakeBox>, chosen: set<string>, taken: set<AwakeBox>) {
    taken <= boxes && forall b :: b in boxes ==> (b.id in chosen <==> b in taken)
  }

  ghost predicate IdsDiffer(boxes: set<AwakeBox>) {
    forall a, b :: a in boxes && b in boxes && a.id == b.id ==> a == b
  }

  /** How many of the candidates are not chosen yet. */
  method CountAwake(ghost boxes: set<AwakeBox>, candidates: seq<AwakeBox>, ghost members: set<AwakeBox>,
                    chosen: set<string>, ghost taken: set<AwakeBox>)
    returns (awakeNow: int)
    requires Candidates(candidates, members) && members <= boxes && Chose(boxes, chosen, taken)
    ensures awakeNow == |members - taken|
  {
    awakeNow := 0;
    BeforeEnds(candidates, members);
    for i := 0 to |candidates|
      invariant awakeNow == |Before(candidates, i) - taken|
    {
      BeforeNext(candidates, members, i);
      var c := candidates[i];
      OneMore(Before(candidates, i), taken, c);
      if c.id !in chosen {
        awakeNow := awakeNow + 1;
      }
    }
  }

  lemma OneMore(seen: set<AwakeBox>, taken: set<AwakeBox>, c: AwakeBox)
    requires c !in seen
    ensures seen + {c} - taken == (if c in taken then seen - taken else (seen - taken) + {c})
    ensures |seen + {c} - taken| == |seen - taken| + (if c in taken then 0 else 1)
  {
    if c in taken {
      assert seen + {c} - taken == seen - taken;
    } else {
      assert seen + {c} - taken == (seen - taken) + {c};
    }
  }

  lemma OneFewer(members: set<AwakeBox>, taken: set<AwakeBox>, c: AwakeBox)
    requires c in members && c !in taken
    ensures |members - (taken + {c})| == |members - taken| - 1
  {
    assert members - (taken + {c}) == (members - taken) - {c};
  }

  /** What Take did: it added `extra`, so that `taken` is chosen, and says whether that was enough. */
  ghost predicate Took(members: set<AwakeBox>, limit: int, taken: set<AwakeBox>, extra: set<AwakeBox>, ok: bool) {
    && extra <= taken
    && (forall e :: e in extra ==> !e.busy)
    && OldestFirst(extra, members, taken)
    && (ok <==> |members - taken| < limit)
    && (ok && extra != {} ==> |members - taken| == limit - 1)
    && (!ok ==> forall c :: c in members && !c.busy ==> c in taken)
  }

  /** What holds while Take walks its list, before candidate i. */
  ghost predicate Taking(members: set<AwakeBox>, seen: set<AwakeBox>, limit: int,
                         taken: set<AwakeBox>, extra: set<AwakeBox>, awakeNow: int) {
    && extra <= seen && extra <= taken
    && (forall e :: e in extra ==> !e.busy)
    && (forall c :: c in seen && !c.busy ==> c in taken)
    && awakeNow == |members - taken|
    && (extra != {} ==> awakeNow >= limit - 1)
  }

  lemma TakeThis(members: set<AwakeBox>, seen: set<AwakeBox>, limit: int, taken0: set<AwakeBox>,
                 taken: set<AwakeBox>, extra: set<AwakeBox>, awakeNow: int, c: AwakeBox)
    requires Taking(members, seen, limit, taken, extra, awakeNow) && taken == taken0 + extra && seen <= members
    requires c in members && c !in taken && !c.busy && awakeNow >= limit
    ensures Taking(members, seen + {c}, limit, taken + {c}, extra + {c}, awakeNow - 1)
    ensures taken + {c} == taken0 + (extra + {c}) && seen + {c} <= members
  {
    OneFewer(members, taken, c);
  }

  lemma PassThis(members: set<AwakeBox>, seen: set<AwakeBox>, limit: int,
                 taken: set<AwakeBox>, extra: set<AwakeBox>, awakeNow: int, c: AwakeBox)
    requires Taking(members, seen, limit, taken, extra, awakeNow) && seen <= members
    requires c in members && (c.busy || c in taken)
    ensures Taking(members, seen + {c}, limit, taken, extra, awakeNow) && seen + {c} <= members
  {
  }

  /** The table of chosen identifiers and the eviction so far. */
  ghost predicate Evicting(boxes: set<AwakeBox>, chosen: set<string>, evict: seq<AwakeBox>, taken: set<AwakeBox>) {
    Lists(evict, taken) && Chose(boxes, chosen, taken)
  }

  lemma EvictOne(boxes: set<AwakeBox>, chosen: set<string>, evict: seq<AwakeBox>, taken: set<AwakeBox>, c: AwakeBox)
    requires IdsDiffer(boxes) && Evicting(boxes, chosen, evict, taken)
    requires c in boxes && c.id !in chosen
    ensures c !in taken && Evicting(boxes, chosen + {c.id}, evict + [c], taken + {c})
  {
    ListAppend(evict, taken, c);
  }

  lemma TakingEnds(candidates: seq<AwakeBox>, members: set<AwakeBox>, i: nat, limit: int,
                   taken: set<AwakeBox>, extra: set<AwakeBox>, awakeNow: int)
    requires Candidates(candidates, members) && i <= |candidates|
    requires Before(candidates, i) <= members
    requires Taking(members, Before(candidates, i), limit, taken, extra, awakeNow)
    requires i == |candidates| || awakeNow < limit
    ensures Took(members, limit, taken, extra, awakeNow < limit)
  {
    BeforeEnds(candidates, members);
    forall e, c | e in extra && c in members - taken && !c.busy
      ensures e.quiet >= c.quiet
    {
      BeforeIsOlder(candidates, members, i, e, c);
    }
  }

  /** The eviction loop has looked at the first i candidates. */
  ghost predicate Underway(boxes: set<AwakeBox>, candidates: seq<AwakeBox>, members: set<AwakeBox>, i: nat, limit: int,
                           taken0: set<AwakeBox>, chosen: set<string>, evict: seq<AwakeBox>,
                           taken: set<AwakeBox>, extra: set<AwakeBox>, awakeNow: int)
    requires i <= |candidates|
  {
    && Before(candidates, i) <= members && taken == taken0 + extra
    && Evicting(boxes, chosen, evict, taken)
    && Taking(members, Before(candidates, i), limit, taken, extra, awakeNow)
  }

  lemma TakesNext(boxes: set<AwakeBox>, candidates: seq<AwakeBox>, members: set<AwakeBox>, i: nat, limit: int,
                  taken0: set<AwakeBox>, chosen: set<string>, evict: seq<AwakeBox>,
                  taken: set<AwakeBox>, extra: set<AwakeBox>, awakeNow: int)
    requires IdsDiffer(boxes) && members <= boxes && Candidates(candidates, members) && i < |candidates| && awakeNow >= limit
    requires Underway(boxes, candidates, members, i, limit, taken0, chosen, evict, taken, extra, awakeNow)
    requires !candidates[i].busy && candidates[i].id !in chosen
    ensures var c := candidates[i];
            Underway(boxes, candidates, members, i + 1, limit, taken0, chosen + {c.id}, evict + [c], taken + {c}, extra + {c},
                     awakeNow - 1)
  {
    BeforeNext(candidates, members, i);
    EvictOne(boxes, chosen, evict, taken, candidates[i]);
    TakeThis(members, Before(candidates, i), limit, taken0, taken, extra, awakeNow, candidates[i]);
  }

  lemma UnderwayEnds(boxes: set<AwakeBox>, candidates: seq<AwakeBox>, members: set<AwakeBox>, i: nat, limit: int,
                     taken0: set<AwakeBox>, chosen: set<string>, evict: seq<AwakeBox>,
                     taken: set<AwakeBox>, extra: set<AwakeBox>, awakeNow: int)
    requires Candidates(candidates, members) && i <= |candidates| && (i == |candidates| || awakeNow < limit)
    requires Underway(boxes, candidates, members, i, limit, taken0, chosen, evict, taken, extra, awakeNow)
    ensures Evicting(boxes, chosen, evict, taken) && taken == taken0 + extra
    ensures Took(members, limit, taken, extra, awakeNow < limit)
  {
    BeforeEnds(candidates, members);
    TakingEnds(candidates, members, i, limit, taken, extra, awakeNow);
  }

  lemma PassesNext(boxes: set<AwakeBox>, candidates: seq<AwakeBox>, members: set<AwakeBox>, i: nat, limit: int,
                   taken0: set<AwakeBox>, chosen: set<string>, evict: seq<AwakeBox>,
                   taken: set<AwakeBox>, extra: set<AwakeBox>, awakeNow: int)
    requires IdsDiffer(boxes) && members <= boxes && Candidates(candidates, members) && i < |candidates|
    requires Underway(boxes, candidates, members, i, limit, taken0, chosen, evict, taken, extra, awakeNow)
    requires candidates[i].busy || candidates[i].id in chosen
    ensures Underway(boxes, candidates, members, i + 1, limit, taken0, chosen, evict, taken, extra, awakeNow)
  {
    BeforeNext(candidates, members, i);
    PassThis(members, Before(candidates, i), limit, taken, extra, awakeNow, candidates[i]);
  }

  /** Puts to sleep enough of the candidates to leave fewer than limit awake. */
  method Take(ghost boxes: set<AwakeBox>, candidates: seq<AwakeBox>, ghost members: set<AwakeBox>, limit: int,
              chosen0: set<string>, evict0: seq<AwakeBox>, ghost taken0: set<AwakeBox>)
    returns (ok: bool, chosen: set<string>, evict: seq<AwakeBox>, ghost taken: set<AwakeBox>, ghost extra: set<AwakeBox>)
    requires IdsDiffer(boxes) && members <= boxes && Candidates(candidates, members)
    requires Evicting(boxes, chosen0, evict0, taken0)
    ensures Evicting(boxes, chosen, evict, taken) && taken == taken0 + extra
    ensures Took(members, limit, taken, extra, ok)
  {
    chosen, evict, taken, extra := chosen0, evict0, taken0, {};
    var awakeNow := CountAwake(boxes, candidates, members, chosen, taken0);
    var i := 0;
    while i < |candidates| && !(awakeNow < limit)
      invariant 0 <= i <= |candidates|
      invariant Underway(boxes, candidates, members, i, limit, taken0, chosen, evict, taken, extra, awakeNow)
    {
      var c := candidates[i];
      if !c.busy && c.id !in chosen {
        TakesNext(boxes, candidates, members, i, limit, taken0, chosen, evict, taken, extra, awakeNow);
        chosen, evict, taken, extra := chosen + {c.id}, evict + [c], taken + {c}, extra + {c};
        awakeNow := awakeNow - 1;
      } else {
        PassesNext(boxes, candidates, members, i, limit, taken0, chosen, evict, taken, extra, awakeNow);
      }
      i := i + 1;
    }
    ok := awakeNow < limit;
    UnderwayEnds(boxes, candidates, members, i, limit, taken0, chosen, evict, taken, extra, awakeNow);
  }

  /** The candidates that are still awake. */
  method Held(ghost boxes: set<AwakeBox>, candidates: seq<AwakeBox>, ghost members: set<AwakeBox>,
              chosen: set<string>, ghost taken: set<AwakeBox>)
    returns (still: seq<AwakeBox>)
    requires Candidates(candidates, members) && members <= boxes && Chose(boxes, chosen, taken)
    ensures Lists(still, members - taken)
  {
    still := [];
    BeforeEnds(candidates, members);
    for i := 0 to |candidates|
      invariant Lists(still, Before(candidates, i) - taken)
    {
      BeforeNext(candidates, members, i);
      var c := candidates[i];
      OneMore(Before(candidates, i), taken, c);
      if c.id !in chosen {
        ListAppend(still, Before(candidates, i) - taken, c);
        still := still + [c];
      }
    }
  }

  lemma CandidatesAppend(boxes: seq<AwakeBox>, members: set<AwakeBox>, c: AwakeBox)
    requires Candidates(boxes, members) && c !in members
    requires forall e :: e in members ==> e.quiet >= c.quiet
    ensures Candidates(boxes + [c], members + {c})
  {
    AllAppend(boxes, c);
    MemberOfAll(boxes, c);
    forall j | 0 <= j < |boxes|
      ensures boxes[j].quiet >= c.quiet
    {
      MemberOfAll(boxes, boxes[j]);
    }
    var more := boxes + [c];
    forall i | 0 <= i < |more|
      ensures more[i] !in more[..i]
    {
      assert more[..i] == boxes[..i];
    }
  }

  /** The candidates one person owns, in the order of the list. */
  method Mine(sorted: seq<AwakeBox>, ghost members: set<AwakeBox>, owner: string) returns (mine: seq<AwakeBox>)
    requires Candidates(sorted, members)
    ensures Candidates(mine, Owned(members, owner))
  {
    mine := [];
    BeforeEnds(sorted, members);
    for i := 0 to |sorted|
      invariant Before(sorted, i) <= members
      invariant Candidates(mine, Owned(Before(sorted, i), owner))
    {
      BeforeNext(sorted, members, i);
      var c := sorted[i];
      if c.owner == owner {
        forall e | e in Before(sorted, i)
          ensures e.quiet >= c.quiet
        {
          BeforeIsOlder(sorted, members, i, e, c);
        }
        CandidatesAppend(mine, Owned(Before(sorted, i), owner), c);
        assert Owned(Before(sorted, i) + {c}, owner) == Owned(Before(sorted, i), owner) + {c};
        mine := mine + [c];
      } else {
        assert Owned(Before(sorted, i) + {c}, owner) == Owned(Before(sorted, i), owner);
      }
    }
  }

  lemma SortedCandidates(awake: seq<AwakeBox>)
    requires DistinctIds(awake)
    ensures Candidates(SortByQuiet(awake), All(awake))
    ensures IdsDiffer(All(awake))
  {
    var sorted := SortByQuiet(awake);
    SortOrders(awake);
    PermutedNoRepeats(awake, sorted);
    SameAll(sorted, awake);
    forall a, b | a in All(awake) && b in All(awake) && a.id == b.id
      ensures a == b
    {
      MemberOfAll(awake, a);
      MemberOfAll(awake, b);
    }
  }

  /** One cap of planRoom: takes enough of the candidates, or says who holds the slots. */
  method TakeOrHeld(ghost boxes: set<AwakeBox>, candidates: seq<AwakeBox>, ghost members: set<AwakeBox>, limit: int,
                    chosen0: set<string>, evict0: seq<AwakeBox>, ghost taken0: set<AwakeBox>)
    returns (ok: bool, still: seq<AwakeBox>, chosen: set<string>, evict: seq<AwakeBox>,
             ghost taken: set<AwakeBox>, ghost extra: set<AwakeBox>)
    requires IdsDiffer(boxes) && members <= boxes && Candidates(candidates, members)
    requires Evicting(boxes, chosen0, evict0, taken0)
    ensures Evicting(boxes, chosen, evict, taken) && taken == taken0 + extra
    ensures Took(members, limit, taken, extra, ok)
    ensures !ok ==> Lists(still, members - taken)
  {
    ok, chosen, evict, taken, extra := Take(boxes, candidates, members, limit, chosen0, evict0, taken0);
    still := [];
    if !ok {
      still := Held(boxes, candidates, members, chosen, taken);
    }
  }

  /** The second half of planRoom: the node's cap, after the person's took `first`. */
  method PlanNode(ghost boxes: set<AwakeBox>, sorted: seq<AwakeBox>, ghost owner: string, ghost perPerson: int, perNode: int,
                  chosen0: set<string>, evict0: seq<AwakeBox>, ghost first: set<AwakeBox>)
    returns (plan: RoomPlan)
    requires IdsDiffer(boxes) && Candidates(sorted, boxes)
    requires Evicting(boxes, chosen0, evict0, first)
    requires if CapsPerson(owner, perPerson) then Took(Owned(boxes, owner), perPerson, first, first, true) else first == {}
    ensures IsPlan(boxes, owner, perPerson, perNode, plan)
  {
    if perNode > 0 {
      var ok, still, chosen, evict, taken, more := TakeOrHeld(boxes, sorted, boxes, perNode, chosen0, evict0, first);
      if ok {
        plan := Evict(evict);
        EvictionHolds(boxes, owner, perPerson, perNode, first, more, evict);
      } else {
        plan := Refuse(RoomRefusal(false, perNode, still));
        RefusalHolds(boxes, owner, perPerson, perNode, false, taken, still);
      }
    } else {
      plan := Evict(evict0);
      assert first + {} == first;
      EvictionHolds(boxes, owner, perPerson, perNode, first, {}, evict0);
    }
  }

  /** Picks the sandboxes to put to sleep so one more owned by owner can wake, the
      least recently used first, never one that is working. */
  method PlanRoom(awake: seq<AwakeBox>, owner: string, perPerson: int, perNode: int) returns (plan: RoomPlan)
    requires DistinctIds(awake)
    ensures IsPlan(All(awake), owner, perPerson, perNode, plan)
  {
    ghost var boxes := All(awake);
    var sorted := SortByQuiet(awake);
    SortedCandidates(awake);
    if owner != "" && perPerson > 0 {
      var mine := Mine(sorted, boxes, owner);
      var ok, still, chosen, evict, taken, first :=
        TakeOrHeld(boxes, mine, Owned(boxes, owner), perPerson, {}, [], {});
      if ok {
        plan := PlanNode(boxes, sorted, owner, perPerson, perNode, chosen, evict, first);
      } else {
        plan := Refuse(RoomRefusal(true, perPerson, still));
        RefusalHolds(boxes, owner, perPerson, perNode, true, taken, still);
      }
    } else {
      plan := PlanNode(boxes, sorted, owner, perPerson, perNode, {}, [], {});
    }
  }

  /** When every idle candidate was chosen and a cap is still full, the ones left
      are the working ones, and nothing makes room. */
  lemma RefusalHolds(awake: set<AwakeBox>, owner: string, perPerson: int, perNode: int, person: bool,
                     taken: set<AwakeBox>, still: seq<AwakeBox>)
    requires if person then CapsPerson(owner, perPerson) else perNode > 0
    requires taken <= Idle(awake)
    requires var capped := if person then Owned(awake, owner) else awake;
             && Lists(still, capped - taken)
             && |capped - taken| >= (if person then perPerson else perNode)
             && forall c :: c in capped && !c.busy ==> c in taken
    ensures IsPlan(awake, owner, perPerson, perNode,
                   Refuse(RoomRefusal(person, if person then perPerson else perNode, still)))
  {
    var capped := if person then Owned(awake, owner) else awake;
    assert capped - taken == capped - Idle(awake);
    forall slept | slept <= Idle(awake)
      ensures |capped - slept| >= |still|
    {
      SubsetSize(capped - taken, capped - slept);
    }
  }

  /** A set that leaves fewer than limit of the capped took at least the rest. */
  lemma TakesAtLeast(capped: set<AwakeBox>, slept: set<AwakeBox>, limit: int)
    requires |capped - slept| < limit
    ensures |slept| >= |capped| - limit + 1
  {
    SubsetSize(capped * slept, slept);
    assert capped == (capped - slept) + (capped * slept);
    assert |capped| == |capped - slept| + |capped * slept|;
  }

  /** Taking exactly down to one free slot is taking as few as possible. */
  lemma TakesFewest(capped: set<AwakeBox>, taken: set<AwakeBox>, slept: set<AwakeBox>, limit: int)
    requires taken <= capped && |capped - taken| == limit - 1 && |capped - slept| < limit
    ensures |taken| <= |slept|
  {
    TakesAtLeast(capped, slept, limit);
    assert capped == (capped - taken) + taken;
  }

  lemma FewestPossible(awake: set<AwakeBox>, owner: string, perPerson: int, perNode: int,
                       first: set<AwakeBox>, more: set<AwakeBox>, slept: set<AwakeBox>)
    requires first <= Owned(awake, owner) && more <= awake
    requires first != {} ==> CapsPerson(owner, perPerson) && |Owned(awake, owner) - first| == perPerson - 1
    requires more != {} ==> perNode > 0 && |awake - (first + more)| == perNode - 1
    requires MakesRoom(awake, owner, perPerson, perNode, slept)
    ensures |first + more| <= |slept|
  {
    if more != {} {
      TakesFewest(awake, first + more, slept, perNode);
    } else if first != {} {
      TakesFewest(Owned(awake, owner), first, slept, perPerson);
      assert first + more == first;
    }
  }

  lemma EvictionHolds(awake: set<AwakeBox>, owner: string, perPerson: int, perNode: int,
                      first: set<AwakeBox>, more: set<AwakeBox>, evict: seq<AwakeBox>)
    requires Lists(evict, first + more)
    requires if CapsPerson(owner, perPerson) then Took(Owned(awake, owner), perPerson, first, first, true) else first == {}
    requires if perNode > 0 then Took(awake, perNode, first + more, more, true) else more == {}
    ensures IsPlan(awake, owner, perPerson, perNode, Evict(evict))
  {
    EvictionMakesRoom(awake, owner, perPerson, perNode, first, more);
    forall slept | MakesRoom(awake, owner, perPerson, perNode, slept)
      ensures |evict| <= |slept|
    {
      FewestPossible(awake, owner, perPerson, perNode, first, more, slept);
    }
    PhasesHold(awake, owner, perPerson, first, more);
  }

  lemma EvictionMakesRoom(awake: set<AwakeBox>, owner: string, perPerson: int, perNode: int,
                          first: set<AwakeBox>, more: set<AwakeBox>)
    requires first + more <= Idle(awake)
    requires CapsPerson(owner, perPerson) ==> |Owned(awake, owner) - first| < perPerson
    requires perNode > 0 ==> |awake - (first + more)| < perNode
    ensures MakesRoom(awake, owner, perPerson, perNode, first + more)
  {
    SubsetSize(Owned(awake, owner) - (first + more), Owned(awake, owner) - first);
  }

  lemma PhasesHold(awake: set<AwakeBox>, owner: string, perPerson: int, first: set<AwakeBox>, more: set<AwakeBox>)
    requires first != {} ==> CapsPerson(owner, perPerson)
    requires OldestFirst(first, Owned(awake, owner), first)
    requires OldestFirst(more, awake, first + more)
    ensures TwoPhases(awake, owner, perPerson, first, first + more)
  {
  }
}
