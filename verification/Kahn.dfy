/** Kahn's algorithm as cycleIssues runs it (packages/shared/src/task-graph.ts): in-degrees and
    dependents in maps, and a stack of what is ready. */
module Kahn {
  ghost predicate Distinct<T>(s: seq<T>) {
    forall i, j :: 0 <= i < j < |s| ==> s[i] != s[j]
  }

  /** The known edges: what a listed id depends on that is listed too, its own id left out. */
  function Known<Id(==)>(deps: map<Id, seq<Id>>): (known: map<Id, set<Id>>)
    ensures known.Keys == deps.Keys
    ensures forall id, d :: id in known && d in known[id] ==> d in known
  {
    map id | id in deps :: set d | d in deps[id] && d != id && d in deps
  }

  /** Numbers that grow along every edge. */
  ghost predicate Ranks<Id(!new)>(known: map<Id, set<Id>>, rank: map<Id, nat>) {
    forall id :: id in known ==> id in rank && forall d :: d in known[id] ==> d in rank && rank[d] < rank[id]
  }

  ghost predicate Acyclic<Id(!new)>(known: map<Id, set<Id>>) {
    exists rank :: Ranks(known, rank)
  }

  ghost predicate WaitsIn<Id(!new)>(known: map<Id, set<Id>>, ids: set<Id>, id: Id) {
    id in known && exists d :: d in ids && d in known[id]
  }

  /** Ids none of which can ever be taken first: each waits on another of them. */
  ghost predicate Entangled<Id(!new)>(known: map<Id, set<Id>>, ids: set<Id>) {
    forall id {:trigger WaitsIn(known, ids, id)} :: id in ids ==> WaitsIn(known, ids, id)
  }

  /** The id is on a cycle or behind one. */
  ghost predicate Stuck<Id(!new)>(known: map<Id, set<Id>>, id: Id) {
    exists ids: set<Id> :: id in ids && Entangled(known, ids)
  }

  // ---------------------------------------------------------------- what the loop keeps

  /** How many of each id's dependencies are still to be visited. */
  ghost predicate Counted<Id(!new)>(known: map<Id, set<Id>>, inDegree: map<Id, nat>, done: set<Id>) {
    inDegree.Keys == known.Keys && forall id :: id in known ==> inDegree[id] == |known[id] - done|
  }

  /** The ids that depend on each id, none of them twice. */
  ghost predicate Reversed<Id(!new)>(known: map<Id, set<Id>>, dependents: map<Id, seq<Id>>) {
    && dependents.Keys == known.Keys
    && forall d :: d in known ==>
         Distinct(dependents[d]) && forall id :: id in dependents[d] <==> id in known && d in known[id]
  }

  /** What has been visited, with a number above those of its dependencies. */
  ghost predicate Visited<Id(!new)>(known: map<Id, set<Id>>, done: set<Id>, rank: map<Id, nat>) {
    && rank.Keys == done && done <= known.Keys
    && (forall id :: id in done ==> rank[id] < |done|)
    && (forall id, d :: id in done && d in known[id] ==> d in done && rank[d] < rank[id])
  }

  /** Ready is what waits for nothing and has not been visited. */
  ghost predicate ReadyOnes<Id(!new)>(inDegree: map<Id, nat>, done: set<Id>, ready: seq<Id>) {
    && Distinct(ready)
    && (forall id :: id in ready ==> id in inDegree && id !in done)
    && (forall id :: id in inDegree ==> (inDegree[id] == 0 <==> id in done || id in ready))
  }

  ghost predicate Keeps<Id(!new)>(known: map<Id, set<Id>>, inDegree: map<Id, nat>, dependents: map<Id, seq<Id>>, ready: seq<Id>,
                                  done: set<Id>, rank: map<Id, nat>) {
    && Counted(known, inDegree, done) && Reversed(known, dependents)
    && ReadyOnes(inDegree, done, ready) && Visited(known, done, rank)
  }

  // ---------------------------------------------------------------- counting the edges

  /** `id` pushed onto the list of each of its dependencies. */
  method AddDependent<Id(==)>(dependents: map<Id, seq<Id>>, deps: set<Id>, id: Id) returns (after: map<Id, seq<Id>>)
    requires deps <= dependents.Keys
    ensures after == map d | d in dependents :: if d in deps then dependents[d] + [id] else dependents[d]
  {
    after := dependents;
    var left := deps;
    while left != {}
      invariant left <= deps && after.Keys == dependents.Keys
      invariant forall d :: d in dependents ==>
                  after[d] == if d in deps && d !in left then dependents[d] + [id] else dependents[d]
      decreases |left|
    {
      var d :| d in left;
      after := after[d := after[d] + [id]];
      left := left - {d};
    }
  }

  /** The counts and lists once the ids of `seen` have been gone through. */
  ghost predicate CountedFor<Id(!new)>(known: map<Id, set<Id>>, inDegree: map<Id, nat>, dependents: map<Id, seq<Id>>, seen: set<Id>) {
    && inDegree.Keys == known.Keys && dependents.Keys == known.Keys
    && (forall id :: id in known ==> inDegree[id] == if id in seen then |known[id]| else 0)
    && (forall d :: d in known ==>
          Distinct(dependents[d]) && forall id :: id in dependents[d] <==> id in known && id in seen && d in known[id])
  }

  lemma OneMoreCounted<Id(!new)>(known: map<Id, set<Id>>, inDegree: map<Id, nat>, dependents: map<Id, seq<Id>>, seen: set<Id>,
                                 id: Id, after: map<Id, seq<Id>>)
    requires CountedFor(known, inDegree, dependents, seen) && id in known && id !in seen
    requires after == map d | d in dependents :: if d in known[id] then dependents[d] + [id] else dependents[d]
    ensures CountedFor(known, inDegree[id := |known[id]|], after, seen + {id})
  {
    forall d | d in known
      ensures Distinct(after[d])
      ensures forall x :: x in after[d] <==> x in known && x in seen + {id} && d in known[x]
    {
      assert id !in dependents[d];
    }
  }

  lemma AllCounted<Id(!new)>(known: map<Id, set<Id>>, inDegree: map<Id, nat>, dependents: map<Id, seq<Id>>)
    requires CountedFor(known, inDegree, dependents, known.Keys)
    ensures Counted(known, inDegree, {}) && Reversed(known, dependents)
  {
    assert forall id :: id in known ==> known[id] - {} == known[id];
  }

  /** One id's edges. */
  method CountOne<Id(==,!new)>(deps: map<Id, seq<Id>>, before: map<Id, nat>, lists: map<Id, seq<Id>>, id: Id, ghost seen: set<Id>)
    returns (inDegree: map<Id, nat>, dependents: map<Id, seq<Id>>)
    requires CountedFor(Known(deps), before, lists, seen) && id in deps && id !in seen
    ensures CountedFor(Known(deps), inDegree, dependents, seen + {id})
  {
    var edges := set d | d in deps[id] && d != id && d in deps;
    dependents := AddDependent(lists, edges, id);
    inDegree := before[id := |edges|];
    OneMoreCounted(Known(deps), before, lists, seen, id, dependents);
    hide CountedFor;
  }

  method CountEdges<Id(==,!new)>(deps: map<Id, seq<Id>>) returns (inDegree: map<Id, nat>, dependents: map<Id, seq<Id>>)
    ensures Counted(Known(deps), inDegree, {}) && Reversed(Known(deps), dependents)
  {
    inDegree := map id | id in deps :: 0;
    dependents := map id | id in deps :: [];
    var left := deps.Keys;
    ghost var seen: set<Id> := {};
    while left != {}
      invariant left <= deps.Keys && forall id :: id in seen <==> id in deps && id !in left
      invariant CountedFor(Known(deps), inDegree, dependents, seen)
      decreases left
    {
      hide CountedFor, Known;
      var id :| id in left;
      inDegree, dependents := CountOne(deps, inDegree, dependents, id, seen);
      left, seen := left - {id}, seen + {id};
    }
    assert seen == Known(deps).Keys;
    hide CountedFor;
    AllCounted(Known(deps), inDegree, dependents);
  }

  // ---------------------------------------------------------------- one turn

  /** What waited for the visited id waits for one id less, and is ready when that was the last. */
  method Visit<Id(==)>(dependents: seq<Id>, before: map<Id, nat>, waiting: seq<Id>) returns (inDegree: map<Id, nat>, ready: seq<Id>)
    requires Distinct(dependents) && forall x :: x in dependents ==> x in before && before[x] >= 1
    requires Distinct(waiting) && forall x :: x in waiting ==> x in before && before[x] == 0
    ensures inDegree == map x | x in before :: if x in dependents then before[x] - 1 else before[x]
    ensures Distinct(ready) && forall x :: x in ready <==> x in waiting || (x in dependents && before[x] == 1)
  {
    inDegree, ready := before, waiting;
    for k := 0 to |dependents|
      invariant inDegree.Keys == before.Keys
      invariant forall x :: x in before ==> inDegree[x] == if x in dependents[..k] then before[x] - 1 else before[x]
      invariant Distinct(ready) && forall x :: x in ready <==> x in waiting || (x in dependents[..k] && before[x] == 1)
    {
      var next := dependents[k];
      assert next in dependents && next !in dependents[..k];
      var degree := inDegree[next] - 1;
      inDegree := inDegree[next := degree];
      if degree == 0 {
        ready := ready + [next];
      }
      assert dependents[..k + 1] == dependents[..k] + [next];
    }
    assert dependents[..|dependents|] == dependents;
  }

  /** One more visited id takes one off the count of exactly those that depend on it. */
  lemma OneVisited<Id>(deps: set<Id>, done: set<Id>, id: Id)
    requires id !in done
    ensures |deps - (done + {id})| == if id in deps then |deps - done| - 1 else |deps - done|
  {
    if id in deps {
      assert deps - done == (deps - (done + {id})) + {id};
    } else {
      assert deps - done == deps - (done + {id});
    }
  }

  lemma LastIsFresh<Id>(ready: seq<Id>)
    requires ready != [] && Distinct(ready)
    ensures var rest, id := ready[..|ready| - 1], ready[|ready| - 1];
            Distinct(rest) && id !in rest && forall x :: x in ready <==> x in rest || x == id
  {
    assert ready == ready[..|ready| - 1] + [ready[|ready| - 1]];
  }

  lemma DependentsWait<Id(!new)>(known: map<Id, set<Id>>, inDegree: map<Id, nat>, dependents: seq<Id>, id: Id, done: set<Id>)
    requires Counted(known, inDegree, done) && id !in done
    requires forall x :: x in dependents <==> x in known && id in known[x]
    ensures forall x :: x in dependents ==> x in inDegree && inDegree[x] >= 1
  {
    forall x | x in dependents ensures x in inDegree && inDegree[x] >= 1 {
      assert id in known[x] - done;
    }
  }

  /** What a turn relies on. */
  lemma TurnFits<Id(!new)>(known: map<Id, set<Id>>, inDegree: map<Id, nat>, dependents: map<Id, seq<Id>>, ready: seq<Id>,
                           done: set<Id>, rank: map<Id, nat>)
    requires Keeps(known, inDegree, dependents, ready, done, rank) && ready != []
    ensures var id, rest := ready[|ready| - 1], ready[..|ready| - 1];
            && id in inDegree && id in dependents && id !in done
            && Distinct(dependents[id]) && (forall x :: x in dependents[id] ==> x in inDegree && inDegree[x] >= 1)
            && Distinct(rest) && (forall x :: x in rest ==> x in inDegree && inDegree[x] == 0)
  {
    hide Visited;
    LastIsFresh(ready);
    var id := ready[|ready| - 1];
    assert id in ready;
    assert inDegree.Keys == known.Keys;
    DependentsWait(known, inDegree, dependents[id], id, done);
    hide Counted, Reversed, Distinct;
  }

  lemma TurnCounts<Id(!new)>(known: map<Id, set<Id>>, before: map<Id, nat>, dependents: seq<Id>, id: Id, done: set<Id>,
                             inDegree: map<Id, nat>)
    requires Counted(known, before, done) && id !in done
    requires forall x :: x in dependents <==> x in known && id in known[x]
    requires forall x :: x in dependents ==> x in before && before[x] >= 1
    requires inDegree == map x | x in before :: if x in dependents then before[x] - 1 else before[x]
    ensures Counted(known, inDegree, done + {id})
  {
    forall x | x in before ensures |known[x] - (done + {id})| == inDegree[x] {
      OneVisited(known[x], done, id);
    }
  }

  lemma VisitedAfter<Id(!new)>(known: map<Id, set<Id>>, done: set<Id>, id: Id, rank: map<Id, nat>)
    requires Visited(known, done, rank) && id !in done && id in known && |known[id] - done| == 0
    ensures Visited(known, done + {id}, rank[id := |done|])
  {
    assert known[id] - done == {};
    assert forall d :: d in known[id] && d !in done ==> d in known[id] - done;
  }

  /** What a turn leaves. */
  lemma TurnKeeps<Id(!new)>(known: map<Id, set<Id>>, before: map<Id, nat>, dependents: map<Id, seq<Id>>, queue: seq<Id>,
                            done: set<Id>, rank: map<Id, nat>, inDegree: map<Id, nat>, ready: seq<Id>)
    requires Keeps(known, before, dependents, queue, done, rank) && queue != []
    requires var id, rest := queue[|queue| - 1], queue[..|queue| - 1];
             && id in dependents && (forall x :: x in dependents[id] ==> x in before && before[x] >= 1)
             && inDegree == (map x | x in before :: if x in dependents[id] then before[x] - 1 else before[x])
             && Distinct(ready) && (forall x :: x in ready <==> x in rest || (x in dependents[id] && before[x] == 1))
    ensures var id := queue[|queue| - 1];
            Keeps(known, inDegree, dependents, ready, done + {id}, rank[id := |done|])
  {
    hide Visited;
    var id := queue[|queue| - 1];
    LastIsFresh(queue);
    assert id in queue && id in known && |known[id] - done| == 0;
    TurnCounts(known, before, dependents[id], id, done, inDegree);
    VisitedAfter(known, done, id, rank);
    TurnReadies(before, dependents[id], queue, done, inDegree, ready);
    hide Counted, Reversed, Distinct, ReadyOnes;
  }

  lemma TurnReadies<Id(!new)>(before: map<Id, nat>, dependents: seq<Id>, queue: seq<Id>, done: set<Id>,
                              inDegree: map<Id, nat>, ready: seq<Id>)
    requires ReadyOnes(before, done, queue) && queue != []
    requires forall x :: x in dependents ==> x in before && before[x] >= 1
    requires inDegree == (map x | x in before :: if x in dependents then before[x] - 1 else before[x])
    requires Distinct(ready)
    requires forall x :: x in ready <==> x in queue[..|queue| - 1] || (x in dependents && before[x] == 1)
    ensures ReadyOnes(inDegree, done + {queue[|queue| - 1]}, ready)
  {
    hide Distinct;
    LastIsFresh(queue);
  }

  // ---------------------------------------------------------------- what the loop leaves

  /** An entangled set has no visited member: its least one would have a dependency in it. */
  lemma {:induction false} NotEntangled<Id(!new)>(known: map<Id, set<Id>>, done: set<Id>, rank: map<Id, nat>, id: Id, ids: set<Id>)
    requires Visited(known, done, rank) && id in done && id in ids
    ensures !Entangled(known, ids)
    decreases rank[id]
  {
    if WaitsIn(known, ids, id) {
      var d :| d in ids && d in known[id];
      NotEntangled(known, done, rank, d, ids);
    }
  }

  lemma {:induction false} EntangledHasNoRanks<Id(!new)>(known: map<Id, set<Id>>, ids: set<Id>, id: Id, rank: map<Id, nat>)
    requires Entangled(known, ids) && id in ids
    ensures !Ranks(known, rank)
    decreases if id in rank then rank[id] + 1 else 0
  {
    assert WaitsIn(known, ids, id);
    var d :| d in ids && d in known[id];
    if id in rank && d in rank && rank[d] < rank[id] {
      EntangledHasNoRanks(known, ids, d, rank);
    }
  }

  /** Whatever is never visited still waits on something else that is not. */
  lemma LeftoversAreEntangled<Id(!new)>(known: map<Id, set<Id>>, inDegree: map<Id, nat>, done: set<Id>)
    requires Counted(known, inDegree, done) && ReadyOnes(inDegree, done, [])
    requires forall id, d :: id in known && d in known[id] ==> d in known
    ensures Entangled(known, known.Keys - done)
  {
    forall id | id in known.Keys - done ensures WaitsIn(known, known.Keys - done, id) {
      assert known[id] - done != {};
      var d :| d in known[id] - done;
      assert d in known.Keys - done;
    }
  }

  lemma WhatIsLeftIsStuck<Id(!new)>(known: map<Id, set<Id>>, inDegree: map<Id, nat>, done: set<Id>, rank: map<Id, nat>)
    requires Counted(known, inDegree, done) && ReadyOnes(inDegree, done, []) && Visited(known, done, rank)
    requires forall id, d :: id in known && d in known[id] ==> d in known
    ensures forall id :: Stuck(known, id) <==> id in known.Keys - done
    ensures Acyclic(known) <==> known.Keys - done == {}
  {
    LeftoversAreEntangled(known, inDegree, done);
    forall id, ids | id in ids && Entangled(known, ids) ensures id in known.Keys - done {
      LeftIfEntangled(known, done, rank, id, ids);
    }
    hide Entangled, Visited, Counted, ReadyOnes;
    forall id, all: map<Id, nat> | id in known.Keys - done ensures !Ranks(known, all) {
      EntangledHasNoRanks(known, known.Keys - done, id, all);
    }
    if known.Keys - done == {} {
      AllRanked(known, done, rank);
    } else {
      var id :| id in known.Keys - done;
    }
  }

  lemma AllRanked<Id(!new)>(known: map<Id, set<Id>>, done: set<Id>, rank: map<Id, nat>)
    requires Visited(known, done, rank) && known.Keys - done == {}
    ensures Acyclic(known)
  {
    assert forall id :: id in known && id !in done ==> id in known.Keys - done;
    assert Ranks(known, rank);
  }

  lemma LeftIfEntangled<Id(!new)>(known: map<Id, set<Id>>, done: set<Id>, rank: map<Id, nat>, id: Id, ids: set<Id>)
    requires Visited(known, done, rank) && id in ids && Entangled(known, ids)
    ensures id in known.Keys - done
  {
    assert WaitsIn(known, ids, id);
    assert id in done ==> !Entangled(known, ids) by {
      if id in done {
        NotEntangled(known, done, rank, id, ids);
      }
    }
  }

  lemma SameSize<Id>(done: set<Id>, ids: set<Id>)
    requires done <= ids
    ensures |done| == |ids| <==> ids - done == {}
  {
    assert ids == done + (ids - done);
  }

  /** The members of a set, in some order (the order of the map they come from). */
  method ListOf<Id(==)>(ids: set<Id>) returns (list: seq<Id>)
    ensures Distinct(list) && forall id :: id in list <==> id in ids
  {
    list := [];
    var left := ids;
    while left != {}
      invariant left <= ids && Distinct(list) && forall id :: id in list <==> id in ids && id !in left
      decreases |left|
    {
      var id :| id in left;
      list := list + [id];
      left := left - {id};
    }
  }

  /** The listed ids with dependencies left, each where it appears first. */
  method Unvisited<Id(==)>(order: seq<Id>, inDegree: map<Id, nat>) returns (stuck: seq<Id>)
    requires forall id :: id in inDegree <==> id in order
    ensures Distinct(stuck) && forall id :: id in stuck <==> id in inDegree && inDegree[id] > 0
  {
    stuck := [];
    for i := 0 to |order|
      invariant Distinct(stuck) && forall id :: id in stuck <==> id in order[..i] && id in inDegree && inDegree[id] > 0
    {
      var id := order[i];
      assert order[..i + 1] == order[..i] + [id];
      if id !in stuck && inDegree[id] > 0 {
        stuck := stuck + [id];
      }
    }
    assert order[..|order|] == order;
  }

  /** One turn of the loop, on the id at the top of the stack. */
  method Turn<Id(==,!new)>(ghost known: map<Id, set<Id>>, before: map<Id, nat>, dependents: map<Id, seq<Id>>, queue: seq<Id>,
                           ghost done: set<Id>, ghost rank: map<Id, nat>)
    returns (inDegree: map<Id, nat>, ready: seq<Id>)
    requires Keeps(known, before, dependents, queue, done, rank) && queue != []
    ensures var id := queue[|queue| - 1];
            id in before && id !in done && Keeps(known, inDegree, dependents, ready, done + {id}, rank[id := |done|])
    ensures inDegree.Keys == before.Keys
  {
    hide Keeps;
    TurnFits(known, before, dependents, queue, done, rank);
    var id := queue[|queue| - 1];
    inDegree, ready := Visit(dependents[id], before, queue[..|queue| - 1]);
    TurnKeeps(known, before, dependents, queue, done, rank, inDegree, ready);
  }

  method Start<Id(==,!new)>(deps: map<Id, seq<Id>>) returns (inDegree: map<Id, nat>, dependents: map<Id, seq<Id>>, ready: seq<Id>)
    ensures Keeps(Known(deps), inDegree, dependents, ready, {}, map[]) && inDegree.Keys == deps.Keys
  {
    inDegree, dependents := CountEdges(deps);
    ready := ListOf(set id | id in inDegree && inDegree[id] == 0);
    Starts(Known(deps), inDegree, dependents, ready);
    hide Keeps;
  }

  /** The loop: visits what can be visited and leaves every other id with dependencies left. */
  method VisitAll<Id(==,!new)>(deps: map<Id, seq<Id>>) returns (inDegree: map<Id, nat>, visited: nat, ghost done: set<Id>)
    ensures inDegree.Keys == deps.Keys && done <= deps.Keys && visited == |done|
    ensures forall id :: Stuck(Known(deps), id) <==> id in deps.Keys - done
    ensures forall id :: id in deps.Keys - done <==> id in inDegree && inDegree[id] > 0
    ensures Acyclic(Known(deps)) <==> deps.Keys - done == {}
  {
    hide Stuck, Acyclic, Keeps;
    ghost var known := Known(deps);
    var dependents, ready;
    inDegree, dependents, ready := Start(deps);
    visited, done := 0, {};
    ghost var rank: map<Id, nat> := map[];
    while ready != []
      invariant Keeps(known, inDegree, dependents, ready, done, rank)
      invariant visited == |done| && done <= deps.Keys && inDegree.Keys == deps.Keys
      decreases deps.Keys - done
    {
      hide Known;
      var id := ready[|ready| - 1];
      visited := visited + 1;
      inDegree, ready := Turn(known, inDegree, dependents, ready, done, rank);
      rank := rank[id := |done|];
      done := done + {id};
    }
    Ends(known, inDegree, dependents, done, rank);
  }

  /** cycleIssues: exactly the ids on a cycle or behind one; `order` is the nodes' ids as listed. */
  method StuckIds<Id(==,!new)>(deps: map<Id, seq<Id>>, order: seq<Id>) returns (stuck: seq<Id>)
    requires forall id :: id in deps <==> id in order
    ensures Distinct(stuck) && forall id :: id in stuck <==> Stuck(Known(deps), id)
    ensures stuck == [] <==> Acyclic(Known(deps))
  {
    hide Stuck, Acyclic, Known;
    ghost var done;
    var inDegree, visited;
    inDegree, visited, done := VisitAll(deps);
    SameSize(done, deps.Keys);
    if visited == |deps| {
      return [];
    }
    stuck := Unvisited(order, inDegree);
    ghost var id :| id in deps.Keys - done;
    assert id in stuck;
  }

  lemma Starts<Id(!new)>(known: map<Id, set<Id>>, inDegree: map<Id, nat>, dependents: map<Id, seq<Id>>, ready: seq<Id>)
    requires Counted(known, inDegree, {}) && Reversed(known, dependents) && Distinct(ready)
    requires forall id :: id in ready <==> id in inDegree && inDegree[id] == 0
    ensures Keeps(known, inDegree, dependents, ready, {}, map[])
  {
  }

  lemma Ends<Id(!new)>(known: map<Id, set<Id>>, inDegree: map<Id, nat>, dependents: map<Id, seq<Id>>, done: set<Id>, rank: map<Id, nat>)
    requires Keeps(known, inDegree, dependents, [], done, rank)
    requires forall id, d :: id in known && d in known[id] ==> d in known
    ensures forall id :: Stuck(known, id) <==> id in known.Keys - done
    ensures forall id :: id in known.Keys - done <==> id in inDegree && inDegree[id] > 0
    ensures Acyclic(known) <==> known.Keys - done == {}
  {
    WhatIsLeftIsStuck(known, inDegree, done, rank);
  }
}
