/** The memory tables as the program changes them: row by row, in transactions that are
    rolled back when a later step refuses (backend/memory/memory_store.py,
    backend/memory/bootstrap.py). */
module MemoryStore {
  import opened Wrappers
  import opened MemoryFacts
  import opened MemoryTheorems

  lemma SeenMore(candidates: seq<Candidate>, c: Candidate)
    ensures forall h :: Seen(candidates + [c], h) <==>
              Seen(candidates, h) || (c.content.Some? && c.content.value.hash == h)
  {
    forall h
      ensures Seen(candidates + [c], h) <==> Seen(candidates, h) || (c.content.Some? && c.content.value.hash == h)
    {
      var more := candidates + [c];
      assert more[|candidates|] == c;
      assert forall i :: 0 <= i < |candidates| ==> more[i] == candidates[i];
    }
  }

  class Store {
    var facts: map<Id, Fact>
    var suggestions: map<Id, Suggestion>

    constructor ()
      ensures Snapshot() == EMPTY
    {
      facts, suggestions := map[], map[];
    }

    ghost function Snapshot(): Tables
      reads this
    {
      Tables(facts, suggestions)
    }

    method InsertFactRow(id: Id, project: string, c: Content, category: string, scope: string, priority: int, now: int)
      returns (reply: Reply)
      modifies `facts
      ensures Outcome(Snapshot(), reply) == InsertFact(old(Snapshot()), id, project, c, category, scope, priority, now)
    {
      if ActiveExists(facts, project, c.hash, None) || id in facts {
        return Duplicate;
      }
      facts := facts[id := Fact(project, c, category, scope, priority, Active, false, None, now)];
      reply := Done;
    }

    method Archive(project: string, id: Id, reasonValid: bool) returns (reply: Reply)
      modifies `facts
      ensures Outcome(Snapshot(), reply) == ArchiveFact(old(Snapshot()), project, id, reasonValid)
    {
      if !reasonValid {
        return Invalid;
      }
      if !(id in facts && facts[id].project == project) {
        return NotFound;
      }
      facts := facts[id := facts[id].(status := Archived, isStale := true)];
      reply := Done;
    }

    method MarkFactStale(project: string, id: Id) returns (reply: Reply)
      modifies `facts
      ensures Outcome(Snapshot(), reply) == MarkStale(old(Snapshot()), project, id)
    {
      if !(id in facts && facts[id].project == project) {
        return NotFound;
      }
      facts := facts[id := facts[id].(status := Stale, isStale := true)];
      reply := Done;
    }

    method FlagStaleMemories(project: string, cutoff: int)
      modifies `facts
      ensures Snapshot() == FlagStale(old(Snapshot()), project, cutoff)
    {
      facts := map id | id in facts ::
        if Expired(facts[id], project, cutoff) then facts[id].(status := Stale, isStale := true) else facts[id];
    }

    method Supersede(project: string, oldId: Id, newId: Id, reasonValid: bool) returns (reply: Reply)
      modifies `facts
      ensures Outcome(Snapshot(), reply) == SupersedeFact(old(Snapshot()), project, oldId, newId, reasonValid)
    {
      if oldId == newId {
        return SelfSupersession;
      }
      if !reasonValid {
        return Invalid;
      }
      if !(oldId in facts && facts[oldId].project == project) || !(newId in facts && facts[newId].project == project) {
        return NotFound;
      }
      if !IsActive(facts[oldId]) || !IsActive(facts[newId]) {
        return NotActive;
      }
      facts := facts[oldId := facts[oldId].(status := Historical, isStale := true, supersededBy := Some(newId))];
      reply := Done;
    }

    /** Field by field, as the update statement is put together. */
    method UpdateFactRow(project: string, id: Id, u: Update) returns (reply: Reply)
      modifies `facts
      ensures Outcome(Snapshot(), reply) == UpdateFact(old(Snapshot()), project, id, u)
    {
      if !u.valid {
        return Invalid;
      }
      if u.content.Some? && ActiveExists(facts, project, u.content.value.hash, Some(id)) {
        return Duplicate;
      }
      if u.content.None? && u.category.None? && u.scope.None? && u.priority.None? {
        return NothingToUpdate;
      }
      if !(id in facts && facts[id].project == project) {
        return NotFound;
      }
      var f := facts[id];
      if u.content.Some? {
        f := f.(content := u.content.value);
      }
      if u.category.Some? {
        f := f.(category := u.category.value);
      }
      if u.scope.Some? {
        f := f.(scope := u.scope.value);
      }
      if u.priority.Some? {
        f := f.(priority := u.priority.value);
      }
      facts := facts[id := f];
      reply := Done;
    }

    // ----- suggestions ----------------------------------------------------------------------

    method InsertSuggestionRow(id: Id, s: Suggestion) returns (reply: Reply)
      modifies `suggestions
      ensures Outcome(Snapshot(), reply) == InsertSuggestion(old(Snapshot()), id, s)
    {
      if id in suggestions || SuggestionExists(suggestions, s.project, s.content.hash, Waiting) {
        return Suppressed;
      }
      suggestions := suggestions[id := s];
      reply := Done;
    }

    method InsertPendingSuggestion(id: Id, project: string, c: Content, category: string, scope: string,
            priority: int, run: Option<string>, valid: bool)
      returns (reply: Reply)
      modifies `suggestions
      ensures Outcome(Snapshot(), reply) ==
                InsertPending(old(Snapshot()), id, project, c, category, scope, priority, run, valid)
    {
      if !valid {
        return Invalid;
      }
      if ActiveExists(facts, project, c.hash, None) || SuggestionExists(suggestions, project, c.hash, Waiting)
         || SuggestionExists(suggestions, project, c.hash, Declined)
      {
        return Suppressed;
      }
      if run.Some? && RunSuggestionExists(suggestions, project, c.hash, run.value) {
        return Suppressed;
      }
      reply := InsertSuggestionRow(id, NewSuggestion(project, c, category, scope, priority, run));
    }

    /** The bootstrap loop with its set of hashes already seen. */
    method GenerateBootstrapSuggestions(project: string, candidates: seq<Candidate>) returns (created: seq<Id>)
      modifies `suggestions
      ensures Snapshot() == Bootstrap(old(Snapshot()), project, candidates)
      ensures forall id :: id in suggestions <==> id in old(suggestions) || id in created
      ensures forall id :: id in created ==> id !in old(suggestions)
      ensures forall i, j :: 0 <= i < j < |created| ==> created[i] != created[j]
    {
      created := [];
      var seenHashes: set<string> := {};
      for i := 0 to |candidates|
        invariant facts == old(facts)
        invariant Snapshot() == Bootstrap(old(Snapshot()), project, candidates[..i])
        invariant forall id :: id in suggestions <==> id in old(suggestions) || id in created
        invariant forall id :: id in created ==> id !in old(suggestions)
        invariant forall i, j :: 0 <= i < j < |created| ==> created[i] != created[j]
        invariant forall h :: h in seenHashes <==> Seen(candidates[..i], h)
      {
        var c := candidates[i];
        assert candidates[..i + 1][..i] == candidates[..i] && candidates[..i + 1][i] == c;
        SeenMore(candidates[..i], c);
        assert candidates[..i + 1] == candidates[..i] + [c];
        if c.content.None? {
          continue;
        }
        var hash := c.content.value.hash;
        if hash in seenHashes {
          continue;
        }
        seenHashes := seenHashes + {hash};
        if ActiveExists(facts, project, hash, None) || SuggestionExists(suggestions, project, hash, Waiting) {
          continue;
        }
        var reply := InsertSuggestionRow(c.id,
            NewSuggestion(project, c.content.value, c.category, c.scope, c.priority, None));
        if reply == Done {
          created := created + [c.id];
        }
      }
      assert candidates[..|candidates|] == candidates;
    }

    // ----- approval ---------------------------------------------------------------------------

    method ApproveInTransaction(project: string, id: Id, a: Approval) returns (reply: Reply)
      modifies this
      ensures Outcome(Snapshot(), reply) == ApproveSuggestion(old(Snapshot()), project, id, a)
    {
      if !(id in suggestions && suggestions[id].project == project) {
        return NotFound;
      }
      var s := suggestions[id];
      if s.status != Waiting {
        return NotWaiting;
      }
      if !a.valid {
        return Invalid;
      }
      reply := InsertFactRow(a.factId, project, Value(a.edited, s.content), s.category, s.scope, s.priority, a.now);
      if reply == Done {
        suggestions := suggestions[id := s.(status := Accepted, approvedFact := Some(a.factId))];
      }
    }

    /** Two steps in one transaction; a refusal of the second undoes the first. */
    method ApproveSuggestionAndSupersede(project: string, id: Id, oldId: Id, a: Approval, reasonValid: bool)
      returns (reply: Reply)
      modifies this
      ensures Outcome(Snapshot(), reply) == ApproveAndSupersede(old(Snapshot()), project, id, oldId, a, reasonValid)
      ensures reply != Done ==> facts == old(facts) && suggestions == old(suggestions)
    {
      ApproveAndSupersedeIsAtomic(Snapshot(), project, id, oldId, a, reasonValid);
      var factsBefore, suggestionsBefore := facts, suggestions;
      reply := ApproveInTransaction(project, id, a);
      if reply == Done {
        reply := Supersede(project, oldId, a.factId, reasonValid);
      }
      if reply != Done {
        facts, suggestions := factsBefore, suggestionsBefore;
      }
    }

    method Decline(project: string, id: Id, reasonValid: bool) returns (reply: Reply)
      modifies `suggestions
      ensures Outcome(Snapshot(), reply) == RejectSuggestion(old(Snapshot()), project, id, reasonValid)
    {
      if !reasonValid {
        return Invalid;
      }
      if !(id in suggestions && suggestions[id].project == project) {
        return NotFound;
      }
      if suggestions[id].status != Waiting {
        return NotWaiting;
      }
      suggestions := suggestions[id := suggestions[id].(status := Declined)];
      reply := Done;
    }

    /** One operation from the outside; the tables stay among those the theorems speak of. */
    method Perform(op: Op) returns (reply: Reply)
      modifies this
      ensures Outcome(Snapshot(), reply) == Step(old(Snapshot()), op)
      ensures Reachable(old(Snapshot())) ==> Reachable(Snapshot())
    {
      hide Reachable;
      if Reachable(Snapshot()) {
        ReachableStep(Snapshot(), op);
      }
      match op {
        case DoAdd(id, project, c, category, scope, priority, valid, now) =>
          if valid {
            reply := InsertFactRow(id, project, c, category, scope, priority, now);
          } else {
            reply := Invalid;
          }
        case DoArchive(project, id, reasonValid) => reply := Archive(project, id, reasonValid);
        case DoMarkStale(project, id) => reply := MarkFactStale(project, id);
        case DoFlagStale(project, cutoff) =>
          FlagStaleMemories(project, cutoff);
          reply := Done;
        case DoSupersede(project, oldId, newId, reasonValid) => reply := Supersede(project, oldId, newId, reasonValid);
        case DoUpdate(project, id, u) => reply := UpdateFactRow(project, id, u);
        case DoInsertPending(id, project, c, category, scope, priority, run, valid) =>
          reply := InsertPendingSuggestion(id, project, c, category, scope, priority, run, valid);
        case DoBootstrap(project, candidates) =>
          var _ := GenerateBootstrapSuggestions(project, candidates);
          reply := Done;
        case DoApprove(project, id, a) => reply := ApproveInTransaction(project, id, a);
        case DoApproveAndSupersede(project, id, oldId, a, reasonValid) =>
          reply := ApproveSuggestionAndSupersede(project, id, oldId, a, reasonValid);
        case DoReject(project, id, reasonValid) => reply := Decline(project, id, reasonValid);
      }
    }
  }
}
