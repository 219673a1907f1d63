/** What each memory operation does to the two tables, said of the rows: when it is refused, and
    what it leaves behind otherwise. */
module MemoryEffects {
  import opened Wrappers
  import opened MemoryFacts

  /** A fact of the project other than `except` is active with this hash. */
  predicate HashIsActive(t: Tables, project: string, hash: string, except: Option<Id>) {
    exists id :: id in t.facts && except != Some(id) && t.facts[id].project == project
                 && t.facts[id].content.hash == hash && t.facts[id].status == Active
  }

  predicate HashIs(t: Tables, project: string, hash: string, status: SuggestionStatus) {
    exists id :: id in t.suggestions && t.suggestions[id].project == project
                 && t.suggestions[id].content.hash == hash && t.suggestions[id].status == status
  }

  /** Fact `id` became `f`, and nothing else changed. */
  predicate OnlyFact(t: Tables, r: Tables, id: Id, f: Fact) {
    r.suggestions == t.suggestions && r.facts == t.facts[id := f]
  }

  lemma HashesAgree(t: Tables, project: string, hash: string, except: Option<Id>, status: SuggestionStatus)
    ensures HashIsActive(t, project, hash, except) <==> ActiveExists(t.facts, project, hash, except)
    ensures HashIs(t, project, hash, status) <==> SuggestionExists(t.suggestions, project, hash, status)
  {}

  // ----- facts -------------------------------------------------------------------------------

  /** A fact is added, active, exactly if it is valid, its id is new and its content is not active in
      the project already. */
  lemma AddEffect(t: Tables, id: Id, project: string, c: Content, category: string, scope: string, priority: int,
          valid: bool, now: int)
    ensures var r := Step(t, DoAdd(id, project, c, category, scope, priority, valid, now));
            && (r.reply == Done <==> valid && id !in t.facts && !HashIsActive(t, project, c.hash, None))
            && (r.reply == Done ==>
                  OnlyFact(t, r.tables, id, Fact(project, c, category, scope, priority, Active, false, None, now)))
            && (r.reply != Done ==> r.tables == t)
  {
    HashesAgree(t, project, c.hash, None, Waiting);
  }

  /** Archiving and staling take any fact of the project, whatever its status, and change nothing but
      its status and its flag. */
  lemma RetireEffect(t: Tables, project: string, id: Id, reasonValid: bool)
    ensures var found := id in t.facts && t.facts[id].project == project;
            var archived, staled := Step(t, DoArchive(project, id, reasonValid)), Step(t, DoMarkStale(project, id));
            && (archived.reply == Done <==> reasonValid && found) && (staled.reply == Done <==> found)
            && (archived.reply == Done ==>
                  OnlyFact(t, archived.tables, id, t.facts[id].(status := Archived, isStale := true)))
            && (staled.reply == Done ==>
                  OnlyFact(t, staled.tables, id, t.facts[id].(status := Stale, isStale := true)))
            && (archived.reply != Done ==> archived.tables == t) && (staled.reply != Done ==> staled.tables == t)
  {}

  /** The sweep takes the active facts of the project that are older than the cutoff, and no others. */
  lemma SweepEffect(t: Tables, project: string, cutoff: int)
    ensures var r := Step(t, DoFlagStale(project, cutoff)).tables;
            && r.suggestions == t.suggestions && r.facts.Keys == t.facts.Keys
            && forall id :: id in t.facts ==>
                 var f := t.facts[id];
                 r.facts[id] ==
                   if f.project == project && f.createdAt < cutoff && f.status == Active && !f.isStale then
                     f.(status := Stale, isStale := true)
                   else f
  {}

  /** One fact replaces another exactly if both are active facts of the project and different. */
  lemma SupersedeEffect(t: Tables, project: string, oldId: Id, newId: Id, reasonValid: bool)
    ensures var r := Step(t, DoSupersede(project, oldId, newId, reasonValid));
            && (r.reply == Done <==>
                  && oldId != newId && reasonValid && oldId in t.facts && newId in t.facts
                  && t.facts[oldId].project == project == t.facts[newId].project
                  && t.facts[oldId].status == Active == t.facts[newId].status
                  && !t.facts[oldId].isStale && !t.facts[newId].isStale)
            && (r.reply == Done ==>
                  OnlyFact(t, r.tables, oldId,
                           t.facts[oldId].(status := Historical, isStale := true, supersededBy := Some(newId))))
            && (r.reply != Done ==> r.tables == t)
  {}

  /** An update goes through exactly if it names something, all it names is valid, the fact is in the
      project and no other active fact of it has the new content; then it sets what it names. */
  lemma UpdateEffect(t: Tables, project: string, id: Id, u: Update)
    ensures var r := Step(t, DoUpdate(project, id, u));
            && (r.reply == Done <==>
                  && u.valid && (u.content.Some? || u.category.Some? || u.scope.Some? || u.priority.Some?)
                  && id in t.facts && t.facts[id].project == project
                  && (u.content.Some? ==> !HashIsActive(t, project, u.content.value.hash, Some(id))))
            && (r.reply != Done ==> r.tables == t)
            && (r.reply == Done ==>
                  && id in r.tables.facts && OnlyFact(t, r.tables, id, r.tables.facts[id])
                  && var f, g := t.facts[id], r.tables.facts[id];
                     && g == f.(content := g.content, category := g.category, scope := g.scope, priority := g.priority)
                     && (if u.content.Some? then g.content == u.content.value else g.content == f.content)
                     && (if u.category.Some? then g.category == u.category.value else g.category == f.category)
                     && (if u.scope.Some? then g.scope == u.scope.value else g.scope == f.scope)
                     && (if u.priority.Some? then g.priority == u.priority.value else g.priority == f.priority))
  {
    if u.content.Some? {
      HashesAgree(t, project, u.content.value.hash, Some(id), Waiting);
    }
  }

  // ----- suggestions -----------------------------------------------------------------------------

  /** A run outcome is suggested exactly if it is valid, its id is new and its content is neither an
      active fact nor waiting nor declined, nor suggested by the same run before. */
  lemma SuggestEffect(t: Tables, id: Id, project: string, c: Content, category: string, scope: string, priority: int,
          run: Option<string>, valid: bool)
    ensures var r := Step(t, DoInsertPending(id, project, c, category, scope, priority, run, valid));
            && (r.reply == Done <==>
                  && valid && id !in t.suggestions && !HashIsActive(t, project, c.hash, None)
                  && !HashIs(t, project, c.hash, Waiting) && !HashIs(t, project, c.hash, Declined)
                  && !(run.Some? && exists i :: i in t.suggestions && t.suggestions[i].project == project
                                                && t.suggestions[i].content.hash == c.hash
                                                && t.suggestions[i].sourceRun == run))
            && (r.reply == Done ==>
                  r.tables == t.(suggestions := t.suggestions[id :=
                    Suggestion(project, c, category, scope, priority, Waiting, run, None)]))
            && (r.reply != Done ==> r.tables == t)
  {
    HashesAgree(t, project, c.hash, None, Waiting);
    HashesAgree(t, project, c.hash, None, Declined);
  }

  /** What the fact of an approved suggestion says. */
  function Approved(s: Suggestion, a: Approval): Content {
    if a.edited.Some? then a.edited.value else s.content
  }

  /** Approving a waiting suggestion adds the fact and accepts the suggestion, or does neither. */
  lemma ApproveEffect(t: Tables, project: string, id: Id, a: Approval)
    ensures var r := Step(t, DoApprove(project, id, a));
            && (r.reply == Done <==>
                  && id in t.suggestions && t.suggestions[id].project == project && t.suggestions[id].status == Waiting
                  && a.valid && a.factId !in t.facts
                  && !HashIsActive(t, project, Approved(t.suggestions[id], a).hash, None))
            && (r.reply != Done ==> r.tables == t)
            && (r.reply == Done ==>
                  var s := t.suggestions[id];
                  && r.tables.facts == t.facts[a.factId :=
                       Fact(project, Approved(s, a), s.category, s.scope, s.priority, Active, false, None, a.now)]
                  && r.tables.suggestions ==
                     t.suggestions[id := s.(status := Accepted, approvedFact := Some(a.factId))])
  {
    if id in t.suggestions {
      HashesAgree(t, project, Approved(t.suggestions[id], a).hash, None, Waiting);
    }
  }

  /** Only a waiting suggestion can be declined, and only with a reason. */
  lemma DeclineEffect(t: Tables, project: string, id: Id, reasonValid: bool)
    ensures var r := Step(t, DoReject(project, id, reasonValid));
            && (r.reply == Done <==>
                  && reasonValid && id in t.suggestions && t.suggestions[id].project == project
                  && t.suggestions[id].status == Waiting)
            && (r.reply != Done ==> r.tables == t)
            && (r.reply == Done ==>
                  r.tables == t.(suggestions := t.suggestions[id := t.suggestions[id].(status := Declined)]))
  {}

  /** The bootstrap scan takes its candidates in order; one is suggested exactly if it is valid and new
      by id, no candidate before it had its content, and that is neither an active fact nor waiting. */
  lemma BootstrapEffect(t: Tables, project: string, front: seq<Candidate>, c: Candidate)
    ensures Step(t, DoBootstrap(project, [])).tables == t
    ensures var before := Step(t, DoBootstrap(project, front)).tables;
            var r := Step(t, DoBootstrap(project, front + [c])).tables;
            if c.content.Some? && c.id !in before.suggestions
               && (forall k :: 0 <= k < |front| && front[k].content.Some? ==>
                     front[k].content.value.hash != c.content.value.hash)
               && !HashIsActive(before, project, c.content.value.hash, None)
               && !HashIs(before, project, c.content.value.hash, Waiting)
            then
              r == before.(suggestions := before.suggestions[c.id :=
                Suggestion(project, c.content.value, c.category, c.scope, c.priority, Waiting, None, None)])
            else r == before
  {
    hide HashIsActive, HashIs, ActiveExists, SuggestionExists;
    var before := Step(t, DoBootstrap(project, front)).tables;
    assert (front + [c])[..|front|] == front;
    if c.content.Some? {
      HashesAgree(before, project, c.content.value.hash, None, Waiting);
    }
  }

  // ----- over runs ---------------------------------------------------------------------------------

  /** After a sweep no active fact of the project is older than the cutoff, and every other active fact
      is still there; sweeping again changes nothing. */
  lemma SweepIsComplete(t: Tables, project: string, cutoff: int)
    ensures var r := Step(t, DoFlagStale(project, cutoff)).tables;
            && (forall id ::
                  id in r.facts && IsActive(r.facts[id]) <==>
                  id in t.facts && IsActive(t.facts[id])
                  && !(t.facts[id].project == project && t.facts[id].createdAt < cutoff))
            && Step(r, DoFlagStale(project, cutoff)).tables == r
  {
    var r := Step(t, DoFlagStale(project, cutoff)).tables;
    SweepEffect(t, project, cutoff);
    SweepEffect(r, project, cutoff);
    assert Step(r, DoFlagStale(project, cutoff)).tables.facts == r.facts;
  }
}
