/** What every run of memory operations guarantees, starting from empty tables. */
module MemoryTheorems {
  import opened Wrappers
  import opened MemoryFacts

  ghost predicate Reachable(t: Tables) {
    exists ops :: t == RunOps(EMPTY, ops)
  }

  lemma ReachableInv(t: Tables)
    requires Reachable(t)
    ensures Inv(t)
  {
    hide Inv;
    var ops :| t == RunOps(EMPTY, ops);
    EmptyInv();
    RunInv(EMPTY, ops);
  }

  lemma {:induction false} RunOpsAppend(t: Tables, ops: seq<Op>, op: Op)
    ensures RunOps(t, ops + [op]) == Step(RunOps(t, ops), op).tables
    decreases |ops|
  {
    hide Step;
    if ops == [] {
      assert ops + [op] == [op] && [op][1..] == [];
    } else {
      assert (ops + [op])[1..] == ops[1..] + [op];
      RunOpsAppend(Step(t, ops[0]).tables, ops[1..], op);
    }
  }

  lemma ReachableStep(t: Tables, op: Op)
    requires Reachable(t)
    ensures Reachable(Step(t, op).tables)
  {
    var ops :| t == RunOps(EMPTY, ops);
    RunOpsAppend(EMPTY, ops, op);
    assert Step(t, op).tables == RunOps(EMPTY, ops + [op]);
  }

  /** The two activity columns never disagree, active facts are never superseded, pointers
      stay inside the project, and a content hash is active at most once per project. */
  lemma ActiveFacts(t: Tables, i: Id, j: Id)
    requires Reachable(t) && i in t.facts && j in t.facts
    ensures t.facts[i].isStale <==> t.facts[i].status != Active
    ensures IsActive(t.facts[i]) ==> t.facts[i].supersededBy == None
    ensures t.facts[i].supersededBy.Some? ==> HasFact(t, t.facts[i].project, t.facts[i].supersededBy.value)
    ensures i != j && IsActive(t.facts[i]) && IsActive(t.facts[j]) && t.facts[i].project == t.facts[j].project ==>
              t.facts[i].content.hash != t.facts[j].content.hash
  {
    ReachableInv(t);
    assert FactOk(t.facts, i) && FactOk(t.facts, j);
  }

  /** A fact that left the active set never returns, whatever happens afterwards; a pointer
      once set is never changed or cleared, and no fact is ever deleted or moved. */
  lemma InactiveForGood(t: Tables, ops: seq<Op>, id: Id)
    requires Reachable(t) && id in t.facts
    ensures var r := RunOps(t, ops);
            && id in r.facts && r.facts[id].project == t.facts[id].project
            && (!IsActive(t.facts[id]) ==> !IsActive(r.facts[id]))
            && (t.facts[id].supersededBy.Some? ==> r.facts[id].supersededBy == t.facts[id].supersededBy)
  {
    ReachableInv(t);
    RunInv(t, ops);
    assert FactOk(t.facts, id);
    assert FactOk(RunOps(t, ops).facts, id);
  }

  // ----- supersession chains --------------------------------------------------------------------

  /** Consecutive facts of the path point to each other. */
  predicate IsChain(facts: map<Id, Fact>, path: seq<Id>) {
    && path != []
    && (forall i :: 0 <= i < |path| ==> path[i] in facts)
    && (forall i :: 0 <= i < |path| - 1 ==> facts[path[i]].supersededBy == Some(path[i + 1]))
  }

  /** Position in the supersession order; facts that do not point come after all that do. */
  ghost function Rank(order: seq<Id>, id: Id): (r: nat)
    ensures r <= |order|
    ensures r < |order| ==> order[r] == id
    ensures r == |order| ==> id !in order
  {
    if id !in order then |order| else var i :| 0 <= i < |order| && order[i] == id; i
  }

  lemma RankRises(facts: map<Id, Fact>, order: seq<Id>, id: Id)
    requires Ordered(facts, order) && id in facts && facts[id].supersededBy.Some?
    ensures Rank(order, id) < Rank(order, facts[id].supersededBy.value)
  {
    assert id in order;
    var i, j := Rank(order, id), Rank(order, facts[id].supersededBy.value);
    assert j < |order| ==> facts[order[i]].supersededBy == Some(order[j]);
  }

  lemma {:induction false} ChainFrom(facts: map<Id, Fact>, order: seq<Id>, id: Id) returns (path: seq<Id>)
    requires Ordered(facts, order) && id in facts
    requires forall i :: i in facts ==> FactOk(facts, i)
    ensures IsChain(facts, path) && path[0] == id && facts[path[|path| - 1]].supersededBy == None
    ensures forall i :: 0 <= i < |path| ==> facts[path[i]].project == facts[id].project
    ensures |path| <= |order| - Rank(order, id) + 1
    decreases |order| - Rank(order, id)
  {
    if facts[id].supersededBy.None? {
      path := [id];
    } else {
      var next := facts[id].supersededBy.value;
      assert FactOk(facts, id);
      RankRises(facts, order, id);
      var rest := ChainFrom(facts, order, next);
      path := [id] + rest;
      forall i | 0 <= i < |path| - 1 ensures facts[path[i]].supersededBy == Some(path[i + 1]) {
        assert i > 0 ==> path[i] == rest[i - 1] && path[i + 1] == rest[i];
      }
    }
  }

  /** Following the pointers from any fact ends, inside its project, at a fact that has not
      been superseded. */
  lemma SupersessionTerminates(t: Tables, id: Id) returns (path: seq<Id>)
    requires Reachable(t) && id in t.facts
    ensures IsChain(t.facts, path) && path[0] == id && t.facts[path[|path| - 1]].supersededBy == None
    ensures forall i :: 0 <= i < |path| ==> t.facts[path[i]].project == t.facts[id].project
  {
    ReachableInv(t);
    var order :| Ordered(t.facts, order);
    path := ChainFrom(t.facts, order, id);
  }

  lemma {:induction false} RanksRise(facts: map<Id, Fact>, order: seq<Id>, path: seq<Id>, i: nat, j: nat)
    requires Ordered(facts, order) && IsChain(facts, path) && i < j < |path|
    ensures Rank(order, path[i]) < Rank(order, path[j])
    decreases j
  {
    var k := j - 1;
    assert facts[path[k]].supersededBy == Some(path[k + 1]);
    RankRises(facts, order, path[k]);
    if i < j - 1 {
      RanksRise(facts, order, path, i, j - 1);
    }
  }

  /** No chain of supersessions ever comes back to a fact it has passed. */
  lemma SupersessionIsAcyclic(t: Tables, path: seq<Id>, i: nat, j: nat)
    requires Reachable(t) && IsChain(t.facts, path) && i < j < |path|
    ensures path[i] != path[j]
  {
    ReachableInv(t);
    var order :| Ordered(t.facts, order);
    RanksRise(t.facts, order, path, i, j);
  }

  // ----- approval --------------------------------------------------------------------------------

  /** Exactly when approve-and-supersede goes through. */
  predicate CanApproveAndSupersede(t: Tables, project: string, id: Id, oldId: Id, a: Approval, reasonValid: bool) {
    && HasSuggestion(t, project, id) && t.suggestions[id].status == Waiting
    && a.valid && reasonValid && a.factId !in t.facts
    && !ActiveExists(t.facts, project, Value(a.edited, t.suggestions[id].content).hash, None)
    && HasFact(t, project, oldId) && IsActive(t.facts[oldId])
  }

  /** All or nothing: either the new fact is active, the old one historical and pointing to
      it, and the suggestion accepted with every other row as it was, or no row changed. */
  lemma ApproveAndSupersedeIsAtomic(t: Tables, project: string, id: Id, oldId: Id, a: Approval, reasonValid: bool)
    ensures var r := ApproveAndSupersede(t, project, id, oldId, a, reasonValid);
            && (r.reply == Done <==> CanApproveAndSupersede(t, project, id, oldId, a, reasonValid))
            && (r.reply != Done ==> r.tables == t)
            && (r.reply == Done ==>
                  && r.tables.facts.Keys == t.facts.Keys + {a.factId}
                  && IsActive(r.tables.facts[a.factId])
                  && r.tables.facts[a.factId].content == Value(a.edited, t.suggestions[id].content)
                  && r.tables.facts[oldId].status == Historical && r.tables.facts[oldId].supersededBy == Some(a.factId)
                  && r.tables.suggestions[id].status == Accepted
                  && r.tables.suggestions[id].approvedFact == Some(a.factId)
                  && (forall i :: i in t.facts && i != oldId ==> r.tables.facts[i] == t.facts[i])
                  && r.tables.suggestions == t.suggestions[id := r.tables.suggestions[id]])
  {
    if CanApproveAndSupersede(t, project, id, oldId, a, reasonValid) {
      var mid := ApproveSuggestion(t, project, id, a);
      assert mid.reply == Done && mid.tables.facts[oldId] == t.facts[oldId];
    }
  }

  /** The old fact is still active when the new one is inserted, so a fact can never be
      superseded by its own content. */
  lemma SameContentNeverSupersedes(t: Tables, project: string, id: Id, oldId: Id, a: Approval, reasonValid: bool)
    requires HasFact(t, project, oldId) && HasSuggestion(t, project, id) && IsActive(t.facts[oldId])
    requires Value(a.edited, t.suggestions[id].content).hash == t.facts[oldId].content.hash
    ensures ApproveAndSupersede(t, project, id, oldId, a, reasonValid).reply != Done
  {
    ApproveAndSupersedeIsAtomic(t, project, id, oldId, a, reasonValid);
  }

  /** Two accepted suggestions never share the fact they became. */
  lemma AcceptedSuggestionsOwnTheirFact(t: Tables, i: Id, j: Id)
    requires Reachable(t) && i in t.suggestions && j in t.suggestions && i != j
    requires t.suggestions[i].status == Accepted
    ensures t.suggestions[i].approvedFact.Some?
    ensures HasFact(t, t.suggestions[i].project, t.suggestions[i].approvedFact.value)
    ensures t.suggestions[j].approvedFact != t.suggestions[i].approvedFact
  {
    ReachableInv(t);
    assert SuggestionOk(t, t.suggestions[i]) && !SharesFact(t.suggestions[i], t.suggestions[j]);
  }

  // ----- declined suggestions ------------------------------------------------------------------------

  /** Once declined, the same content is never suggested again by a run outcome. */
  lemma DeclinedStaysOut(t: Tables, ops: seq<Op>, declined: Id, id: Id, category: string, scope: string,
          priority: int, run: Option<string>)
    requires Reachable(t) && declined in t.suggestions && t.suggestions[declined].status == Declined
    ensures var s := t.suggestions[declined];
            var r := RunOps(t, ops);
            InsertPending(r, id, s.project, s.content, category, scope, priority, run, true) == Outcome(r, Suppressed)
  {
    hide Inv;
    ReachableInv(t);
    RunInv(t, ops);
    var s, r := t.suggestions[declined], RunOps(t, ops);
    assert r.suggestions[declined] == s;
    assert SuggestionExists(r.suggestions, s.project, s.content.hash, Declined);
  }

  /** The bootstrap scan does not look at declined suggestions: it brings the content back
      exactly when nothing with that hash is active or waiting and its row id is new. */
  lemma BootstrapRevivesIff(t: Tables, project: string, c: Candidate)
    requires c.content.Some?
    ensures var r := Bootstrap(t, project, [c]);
            var revives := && !ActiveExists(t.facts, project, c.content.value.hash, None)
                           && !SuggestionExists(t.suggestions, project, c.content.value.hash, Waiting)
                           && c.id !in t.suggestions;
            if revives then
              r == t.(suggestions := t.suggestions[c.id := NewSuggestion(project, c.content.value, c.category,
                  c.scope, c.priority, None)])
            else r == t
  {
    assert [c][..0] == [];
    assert Bootstrap(t, project, [c]) == BootstrapOne(Bootstrap(t, project, []), project, c);
  }
}
