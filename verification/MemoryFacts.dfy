/** Project memory: facts, suggestions and their lifecycle, as functions of the two tables
    (backend/memory/memory_store.py, backend/memory/bootstrap.py). */
module MemoryFacts {
  import opened Wrappers

  type Id = string

  /** Validated text and its content hash. */
  datatype Content = Content(text: string, hash: string)

  datatype FactStatus = Active | Stale | Archived | Historical

  datatype Fact = Fact(
    project: string,
    content: Content,
    category: string,
    scope: string,
    priority: int,
    status: FactStatus,
    isStale: bool,
    supersededBy: Option<Id>,
    createdAt: int)

  datatype SuggestionStatus = Waiting | Accepted | Declined

  datatype Suggestion = Suggestion(
    project: string,
    content: Content,
    category: string,
    scope: string,
    priority: int,
    status: SuggestionStatus,
    sourceRun: Option<string>,
    approvedFact: Option<Id>)

  datatype Tables = Tables(facts: map<Id, Fact>, suggestions: map<Id, Suggestion>)

  datatype Reply =
    | Done | Suppressed | Invalid | Duplicate | NotFound | NotActive | NotWaiting | SelfSupersession | NothingToUpdate

  datatype Outcome = Outcome(tables: Tables, reply: Reply)

  // ----- queries ---------------------------------------------------------------------------

  predicate IsActive(f: Fact) {
    f.status == Active && !f.isStale
  }

  /** An active-status fact of the project with this hash, other than `except`. */
  predicate ActiveExists(facts: map<Id, Fact>, project: string, hash: string, except: Option<Id>) {
    exists id :: id in facts && facts[id].project == project && facts[id].content.hash == hash
                 && facts[id].status == Active && except != Some(id)
  }

  predicate SuggestionExists(suggestions: map<Id, Suggestion>, project: string, hash: string,
          status: SuggestionStatus) {
    exists id :: id in suggestions && suggestions[id].project == project && suggestions[id].content.hash == hash
                 && suggestions[id].status == status
  }

  predicate RunSuggestionExists(suggestions: map<Id, Suggestion>, project: string, hash: string, run: string) {
    exists id :: id in suggestions && suggestions[id].project == project && suggestions[id].content.hash == hash
                 && suggestions[id].sourceRun == Some(run)
  }

  predicate HasFact(t: Tables, project: string, id: Id) {
    id in t.facts && t.facts[id].project == project
  }

  predicate HasSuggestion(t: Tables, project: string, id: Id) {
    id in t.suggestions && t.suggestions[id].project == project
  }

  function SetFact(t: Tables, id: Id, f: Fact): Tables {
    t.(facts := t.facts[id := f])
  }

  // ----- fact operations -----------------------------------------------------------------------

  /** Insert an active fact; a hash already active or an id already used is a duplicate. */
  function InsertFact(t: Tables, id: Id, project: string, c: Content, category: string, scope: string,
          priority: int, now: int): Outcome {
    if ActiveExists(t.facts, project, c.hash, None) || id in t.facts then Outcome(t, Duplicate)
    else Outcome(SetFact(t, id, Fact(project, c, category, scope, priority, Active, false, None, now)), Done)
  }

  function AddFact(t: Tables, id: Id, project: string, c: Content, category: string, scope: string, priority: int,
          valid: bool, now: int): Outcome {
    if !valid then Outcome(t, Invalid) else InsertFact(t, id, project, c, category, scope, priority, now)
  }

  function ArchiveFact(t: Tables, project: string, id: Id, reasonValid: bool): Outcome {
    if !reasonValid then Outcome(t, Invalid)
    else if !HasFact(t, project, id) then Outcome(t, NotFound)
    else Outcome(SetFact(t, id, t.facts[id].(status := Archived, isStale := true)), Done)
  }

  /** No look at the status: an archived or historical fact becomes stale too. */
  function MarkStale(t: Tables, project: string, id: Id): Outcome {
    if !HasFact(t, project, id) then Outcome(t, NotFound)
    else Outcome(SetFact(t, id, t.facts[id].(status := Stale, isStale := true)), Done)
  }

  predicate Expired(f: Fact, project: string, cutoff: int) {
    f.project == project && f.createdAt < cutoff && IsActive(f)
  }

  function FlagStale(t: Tables, project: string, cutoff: int): Tables {
    t.(facts := map id | id in t.facts ::
      if Expired(t.facts[id], project, cutoff) then t.facts[id].(status := Stale, isStale := true) else t.facts[id])
  }

  function SupersedeFact(t: Tables, project: string, oldId: Id, newId: Id, reasonValid: bool): Outcome {
    if oldId == newId then Outcome(t, SelfSupersession)
    else if !reasonValid then Outcome(t, Invalid)
    else if !HasFact(t, project, oldId) || !HasFact(t, project, newId) then Outcome(t, NotFound)
    else if !IsActive(t.facts[oldId]) || !IsActive(t.facts[newId]) then Outcome(t, NotActive)
    else
      Outcome(SetFact(t, oldId, t.facts[oldId].(status := Historical, isStale := true, supersededBy := Some(newId))),
          Done)
  }

  /** The fields an update names; `valid`: all of them pass their validators. */
  datatype Update = Update(content: Option<Content>, category: Option<string>, scope: Option<string>,
      priority: Option<int>, valid: bool)

  function Value<T>(o: Option<T>, fallback: T): T {
    if o.Some? then o.value else fallback
  }

  /** The duplicate check looks at active facts only, but whatever the status of the fact
      being updated. */
  function UpdateFact(t: Tables, project: string, id: Id, u: Update): Outcome {
    if !u.valid then Outcome(t, Invalid)
    else if u.content.Some? && ActiveExists(t.facts, project, u.content.value.hash, Some(id)) then Outcome(t, Duplicate)
    else if u.content.None? && u.category.None? && u.scope.None? && u.priority.None? then Outcome(t, NothingToUpdate)
    else if !HasFact(t, project, id) then Outcome(t, NotFound)
    else
      var f := t.facts[id];
      Outcome(SetFact(t, id, f.(content := Value(u.content, f.content), category := Value(u.category, f.category),
                                scope := Value(u.scope, f.scope), priority := Value(u.priority, f.priority))), Done)
  }

  // ----- suggestion operations ------------------------------------------------------------------

  /** Raw insert under the unique index on waiting suggestions. */
  function InsertSuggestion(t: Tables, id: Id, s: Suggestion): Outcome {
    if id in t.suggestions || SuggestionExists(t.suggestions, s.project, s.content.hash, Waiting) then
        Outcome(t, Suppressed)
    else Outcome(t.(suggestions := t.suggestions[id := s]), Done)
  }

  function NewSuggestion(project: string, c: Content, category: string, scope: string, priority: int,
          run: Option<string>): Suggestion {
    Suggestion(project, c, category, scope, priority, Waiting, run, None)
  }

  function InsertPending(t: Tables, id: Id, project: string, c: Content, category: string, scope: string,
          priority: int, run: Option<string>, valid: bool): Outcome {
    if !valid then Outcome(t, Invalid)
    else if ActiveExists(t.facts, project, c.hash, None)
            || SuggestionExists(t.suggestions, project, c.hash, Waiting)
            || SuggestionExists(t.suggestions, project, c.hash, Declined)
            || (run.Some? && RunSuggestionExists(t.suggestions, project, c.hash, run.value))
    then Outcome(t, Suppressed)
    else InsertSuggestion(t, id, NewSuggestion(project, c, category, scope, priority, run))
  }

  /** A bootstrap candidate; content None where validation refuses it. */
  datatype Candidate = Candidate(id: Id, content: Option<Content>, category: string, scope: string, priority: int)

  /** Bootstrap looks at active facts and waiting suggestions, not at declined ones. */
  function BootstrapOne(t: Tables, project: string, c: Candidate): Tables {
    if c.content.None? || ActiveExists(t.facts, project, c.content.value.hash, None)
       || SuggestionExists(t.suggestions, project, c.content.value.hash, Waiting)
    then t
    else InsertSuggestion(t, c.id, NewSuggestion(project, c.content.value, c.category, c.scope, c.priority,
        None)).tables
  }

  /** Some candidate of the list has this hash. */
  predicate Seen(candidates: seq<Candidate>, hash: string) {
    exists i :: 0 <= i < |candidates| && candidates[i].content.Some? && candidates[i].content.value.hash == hash
  }

  /** Candidates in order; a hash seen before is skipped. */
  function Bootstrap(t: Tables, project: string, candidates: seq<Candidate>): Tables
    decreases |candidates|
  {
    if candidates == [] then t
    else
      var front, c := candidates[..|candidates| - 1], candidates[|candidates| - 1];
      var before := Bootstrap(t, project, front);
      if c.content.Some? && Seen(front, c.content.value.hash) then before else BootstrapOne(before, project, c)
  }

  /** Edited text, if any, replaces the suggested text in the fact; `valid`: the result
      passes the memory gate. */
  datatype Approval = Approval(factId: Id, edited: Option<Content>, valid: bool, now: int)

  function ApproveSuggestion(t: Tables, project: string, id: Id, a: Approval): Outcome {
    if !HasSuggestion(t, project, id) then Outcome(t, NotFound)
    else
      var s := t.suggestions[id];
      if s.status != Waiting then Outcome(t, NotWaiting)
      else if !a.valid then Outcome(t, Invalid)
      else
        var inserted := InsertFact(t, a.factId, project, Value(a.edited, s.content), s.category, s.scope, s.priority,
            a.now);
        if inserted.reply != Done then inserted
        else
          Outcome(inserted.tables.(suggestions := t.suggestions[id := s.(status := Accepted,
              approvedFact := Some(a.factId))]), Done)
  }

  /** Both steps in one transaction: when the second refuses, the first is rolled back. */
  function ApproveAndSupersede(t: Tables, project: string, id: Id, oldId: Id, a: Approval, reasonValid: bool): Outcome {
    var approved := ApproveSuggestion(t, project, id, a);
    if approved.reply != Done then approved
    else
      var superseded := SupersedeFact(approved.tables, project, oldId, a.factId, reasonValid);
      if superseded.reply == Done then superseded else Outcome(t, superseded.reply)
  }

  function RejectSuggestion(t: Tables, project: string, id: Id, reasonValid: bool): Outcome {
    if !reasonValid then Outcome(t, Invalid)
    else if !HasSuggestion(t, project, id) then Outcome(t, NotFound)
    else if t.suggestions[id].status != Waiting then Outcome(t, NotWaiting)
    else Outcome(t.(suggestions := t.suggestions[id := t.suggestions[id].(status := Declined)]), Done)
  }

  // ----- steps ---------------------------------------------------------------------------------------

  datatype Op =
    | DoAdd(id: Id, project: string, c: Content, category: string, scope: string, priority: int, valid: bool, now: int)
    | DoArchive(project: string, id: Id, reasonValid: bool)
    | DoMarkStale(project: string, id: Id)
    | DoFlagStale(project: string, cutoff: int)
    | DoSupersede(project: string, oldId: Id, newId: Id, reasonValid: bool)
    | DoUpdate(project: string, id: Id, u: Update)
    | DoInsertPending(id: Id, project: string, c: Content, category: string, scope: string, priority: int,
        run: Option<string>, valid: bool)
    | DoBootstrap(project: string, candidates: seq<Candidate>)
    | DoApprove(project: string, id: Id, approval: Approval)
    | DoApproveAndSupersede(project: string, id: Id, oldId: Id, approval: Approval, reasonValid: bool)
    | DoReject(project: string, id: Id, reasonValid: bool)

  function Step(t: Tables, op: Op): Outcome {
    match op
    case DoAdd(id, project, c, category, scope, priority, valid, now) =>
      AddFact(t, id, project, c, category, scope, priority, valid, now)
    case DoArchive(project, id, reasonValid) => ArchiveFact(t, project, id, reasonValid)
    case DoMarkStale(project, id) => MarkStale(t, project, id)
    case DoFlagStale(project, cutoff) => Outcome(FlagStale(t, project, cutoff), Done)
    case DoSupersede(project, oldId, newId, reasonValid) => SupersedeFact(t, project, oldId, newId, reasonValid)
    case DoUpdate(project, id, u) => UpdateFact(t, project, id, u)
    case DoInsertPending(id, project, c, category, scope, priority, run, valid) =>
      InsertPending(t, id, project, c, category, scope, priority, run, valid)
    case DoBootstrap(project, candidates) => Outcome(Bootstrap(t, project, candidates), Done)
    case DoApprove(project, id, a) => ApproveSuggestion(t, project, id, a)
    case DoApproveAndSupersede(project, id, oldId, a, reasonValid) =>
      ApproveAndSupersede(t, project, id, oldId, a, reasonValid)
    case DoReject(project, id, reasonValid) => RejectSuggestion(t, project, id, reasonValid)
  }

  function RunOps(t: Tables, ops: seq<Op>): Tables
    decreases |ops|
  {
    if ops == [] then t else RunOps(Step(t, ops[0]).tables, ops[1..])
  }

  const EMPTY := Tables(map[], map[])

  // ----- the invariant ---------------------------------------------------------------------------------

  /** Stale exactly when not active; only inactive facts point; a pointer stays in its
      project and names another fact. */
  ghost predicate FactOk(facts: map<Id, Fact>, id: Id)
    requires id in facts
  {
    var f := facts[id];
    && (f.isStale <==> f.status != Active)
    && (f.supersededBy.Some? ==>
          && f.status != Active && f.supersededBy.value != id
          && f.supersededBy.value in facts && facts[f.supersededBy.value].project == f.project)
  }

  predicate SameActive(f: Fact, g: Fact) {
    f.status == Active && g.status == Active && f.project == g.project && f.content.hash == g.content.hash
  }

  predicate SameWaiting(s: Suggestion, r: Suggestion) {
    s.status == Waiting && r.status == Waiting && s.project == r.project && s.content.hash == r.content.hash
  }

  predicate SharesFact(s: Suggestion, r: Suggestion) {
    s.approvedFact.Some? && s.approvedFact == r.approvedFact
  }

  /** At most one active fact per project and content hash. */
  ghost predicate ActiveUnique(facts: map<Id, Fact>) {
    forall i, j :: i in facts && j in facts && SameActive(facts[i], facts[j]) ==> i == j
  }

  /** `order` lists the facts that point, each before the fact it points to. */
  ghost predicate Ordered(facts: map<Id, Fact>, order: seq<Id>) {
    && (forall i, j :: 0 <= i < j < |order| ==> order[i] != order[j])
    && (forall id :: id in order <==> id in facts && facts[id].supersededBy.Some?)
    && (forall i, j :: 0 <= j <= i < |order| ==> facts[order[i]].supersededBy != Some(order[j]))
  }

  /** An accepted suggestion names a fact of its project, any other names none. */
  ghost predicate SuggestionOk(t: Tables, s: Suggestion) {
    && (s.status == Accepted <==> s.approvedFact.Some?)
    && (s.approvedFact.Some? ==> HasFact(t, s.project, s.approvedFact.value))
  }

  ghost predicate WaitingUnique(suggestions: map<Id, Suggestion>) {
    forall i, j :: i in suggestions && j in suggestions && SameWaiting(suggestions[i], suggestions[j]) ==> i == j
  }

  ghost predicate OwnersUnique(suggestions: map<Id, Suggestion>) {
    forall i, j :: i in suggestions && j in suggestions && SharesFact(suggestions[i], suggestions[j]) ==> i == j
  }

  /** One waiting suggestion per hash; accepted ones name their own fact of their project. */
  ghost predicate SuggestionsOk(t: Tables) {
    && WaitingUnique(t.suggestions)
    && OwnersUnique(t.suggestions)
    && forall i :: i in t.suggestions ==> SuggestionOk(t, t.suggestions[i])
  }

  ghost predicate FactsOk(facts: map<Id, Fact>) {
    && (forall id :: id in facts ==> FactOk(facts, id))
    && ActiveUnique(facts)
    && exists order :: Ordered(facts, order)
  }

  ghost predicate Inv(t: Tables) {
    FactsOk(t.facts) && SuggestionsOk(t)
  }

  /** What no operation ever takes back. */
  ghost predicate Later(t: Tables, r: Tables) {
    && (forall id :: id in t.facts ==> id in r.facts && FactLater(t.facts[id], r.facts[id]))
    && (forall id :: id in t.suggestions ==>
          && id in r.suggestions && t.suggestions[id].project == r.suggestions[id].project
          && t.suggestions[id].content == r.suggestions[id].content
          && (t.suggestions[id].status != Waiting ==> r.suggestions[id] == t.suggestions[id]))
  }

  ghost predicate FactLater(f: Fact, g: Fact) {
    && g.project == f.project && g.createdAt == f.createdAt
    && (f.status != Active ==> g.status != Active)
    && (f.supersededBy.Some? ==> g.supersededBy == f.supersededBy)
  }

  // ----- preservation --------------------------------------------------------------------------------

  ghost predicate SamePointers(facts: map<Id, Fact>, r: map<Id, Fact>) {
    && (forall id :: id in facts ==>
          id in r && r[id].supersededBy == facts[id].supersededBy && r[id].project == facts[id].project)
    && (forall id :: id in r && id !in facts ==> r[id].supersededBy == None)
  }

  lemma OrderedKept(facts: map<Id, Fact>, r: map<Id, Fact>, order: seq<Id>)
    requires Ordered(facts, order) && SamePointers(facts, r)
    ensures Ordered(r, order)
  {
    forall i | 0 <= i < |order| ensures order[i] in facts {
      assert order[i] in order;
    }
  }

  /** Facts whose pointers stay put only need their flags and their hashes looked at. */
  lemma FactsRebuilt(facts: map<Id, Fact>, r: map<Id, Fact>)
    requires FactsOk(facts) && SamePointers(facts, r) && ActiveUnique(r)
    requires forall id :: id in r ==> (r[id].isStale <==> r[id].status != Active)
    requires forall id :: id in r && r[id].status == Active ==> id !in facts || facts[id].status == Active
    ensures FactsOk(r)
  {
    var order :| Ordered(facts, order);
    OrderedKept(facts, r, order);
    forall id | id in r ensures FactOk(r, id) {
      assert id in facts ==> FactOk(facts, id);
    }
  }

  lemma SuggestionsKept(t: Tables, r: Tables)
    requires SuggestionsOk(t) && r.suggestions == t.suggestions
    requires forall id :: id in t.facts ==> id in r.facts && r.facts[id].project == t.facts[id].project
    ensures SuggestionsOk(r)
  {}

  /** Changing one fact without touching its pointer, its project or making it active. */
  lemma FactEdited(t: Tables, id: Id, f: Fact)
    requires Inv(t) && id in t.facts
    requires f.project == t.facts[id].project && f.createdAt == t.facts[id].createdAt
    requires f.supersededBy == t.facts[id].supersededBy
    requires f.isStale <==> f.status != Active
    requires f.status == Active ==>
               && t.facts[id].status == Active
               && (f.content.hash == t.facts[id].content.hash
                   || !ActiveExists(t.facts, f.project, f.content.hash, Some(id)))
    ensures Inv(SetFact(t, id, f)) && Later(t, SetFact(t, id, f))
  {
    hide FactsOk, SuggestionsOk;
    var r := SetFact(t, id, f);
    Flags(t.facts);
    FactsRebuilt(t.facts, r.facts);
    SuggestionsKept(t, r);
  }

  lemma Flags(facts: map<Id, Fact>)
    requires FactsOk(facts)
    ensures ActiveUnique(facts)
    ensures forall id :: id in facts ==> (facts[id].isStale <==> facts[id].status != Active)
    ensures forall id :: id in facts && facts[id].status == Active ==> facts[id].supersededBy == None
  {
    forall id | id in facts ensures FactOk(facts, id) {}
  }

  lemma FactInserted(t: Tables, id: Id, f: Fact)
    requires Inv(t) && id !in t.facts
    requires f.status == Active && !f.isStale && f.supersededBy == None
    requires !ActiveExists(t.facts, f.project, f.content.hash, None)
    ensures Inv(SetFact(t, id, f)) && Later(t, SetFact(t, id, f))
  {
    hide FactsOk, SuggestionsOk;
    var r := SetFact(t, id, f);
    Flags(t.facts);
    FactsRebuilt(t.facts, r.facts);
    SuggestionsKept(t, r);
  }

  /** Supersession appends to the order: the new fact is active, so it does not point yet. */
  lemma Superseded(t: Tables, project: string, oldId: Id, newId: Id)
    requires Inv(t) && oldId != newId && HasFact(t, project, oldId) && HasFact(t, project, newId)
    requires IsActive(t.facts[oldId]) && IsActive(t.facts[newId])
    ensures var r := SupersedeFact(t, project, oldId, newId, true).tables; Inv(r) && Later(t, r)
  {
    hide SuggestionsOk, FactsOk;
    var r := SupersedeFact(t, project, oldId, newId, true).tables;
    Flags(t.facts);
    SupersededFacts(t.facts, project, oldId, newId, r.facts);
    SuggestionsKept(t, r);
  }

  lemma SupersededFacts(facts: map<Id, Fact>, project: string, oldId: Id, newId: Id, r: map<Id, Fact>)
    requires FactsOk(facts) && oldId != newId && oldId in facts && newId in facts
    requires facts[oldId].project == project == facts[newId].project
               && facts[oldId].status == facts[newId].status == Active
    requires r == facts[oldId := facts[oldId].(status := Historical, isStale := true, supersededBy := Some(newId))]
    ensures FactsOk(r)
  {
    var order :| Ordered(facts, order);
    Flags(facts);
    SupersededOrder(facts, order, oldId, newId, r);
    forall i | i in r ensures FactOk(r, i) {
      assert FactOk(facts, i);
    }
  }

  lemma SupersededOrder(facts: map<Id, Fact>, order: seq<Id>, oldId: Id, newId: Id, r: map<Id, Fact>)
    requires Ordered(facts, order) && oldId in facts && newId in facts && oldId != newId
    requires facts[oldId].supersededBy == None && facts[newId].supersededBy == None
    requires oldId in r && r == facts[oldId := r[oldId]] && r[oldId].supersededBy == Some(newId)
    ensures Ordered(r, order + [oldId])
  {
    var longer := order + [oldId];
    assert oldId !in order && newId !in order;
    forall id ensures id in longer <==> id in r && r[id].supersededBy.Some? {
      assert id in longer <==> id in order || id == oldId;
    }
    forall i, j | 0 <= j <= i < |longer| ensures r[longer[i]].supersededBy != Some(longer[j]) {
      assert longer[i] in longer && longer[j] in longer;
      if i == |order| {
        assert j < |order| ==> order[j] in order;
      } else {
        assert order[i] in order;
      }
    }
  }

  lemma FlagStaleInv(t: Tables, project: string, cutoff: int)
    requires Inv(t)
    ensures Inv(FlagStale(t, project, cutoff)) && Later(t, FlagStale(t, project, cutoff))
  {
    hide FactsOk, SuggestionsOk;
    var r := FlagStale(t, project, cutoff);
    Flags(t.facts);
    FactsRebuilt(t.facts, r.facts);
    SuggestionsKept(t, r);
  }

  lemma SuggestionInserted(t: Tables, id: Id, s: Suggestion)
    requires Inv(t) && s.status == Waiting && s.approvedFact == None
    ensures var r := InsertSuggestion(t, id, s).tables; Inv(r) && Later(t, r)
  {
    hide FactsOk;
  }

  lemma {:induction false} BootstrapInv(t: Tables, project: string, candidates: seq<Candidate>)
    requires Inv(t)
    ensures Inv(Bootstrap(t, project, candidates)) && Later(t, Bootstrap(t, project, candidates))
    decreases |candidates|
  {
    hide Inv;
    if candidates != [] {
      var front, c := candidates[..|candidates| - 1], candidates[|candidates| - 1];
      BootstrapInv(t, project, front);
      var mid := Bootstrap(t, project, front);
      if c.content.Some? {
        SuggestionInserted(mid, c.id, NewSuggestion(project, c.content.value, c.category, c.scope, c.priority, None));
      }
    }
  }

  lemma InsertFactInv(t: Tables, id: Id, project: string, c: Content, category: string, scope: string,
          priority: int, now: int)
    requires Inv(t)
    ensures var r := InsertFact(t, id, project, c, category, scope, priority, now);
            Inv(r.tables) && Later(t, r.tables)
  {
    hide Inv;
    if InsertFact(t, id, project, c, category, scope, priority, now).reply == Done {
      FactInserted(t, id, Fact(project, c, category, scope, priority, Active, false, None, now));
    }
  }

  /** What a waiting suggestion may become. */
  ghost predicate Decides(t: Tables, id: Id, s: Suggestion) {
    && id in t.suggestions && t.suggestions[id].status == Waiting
    && s.project == t.suggestions[id].project && s.content == t.suggestions[id].content
    && (s.status == Declined || s.status == Accepted)
    && (s.status == Declined ==> s.approvedFact == t.suggestions[id].approvedFact)
    && (s.status == Accepted ==>
          && s.approvedFact.Some? && HasFact(t, s.project, s.approvedFact.value)
          && forall j :: j in t.suggestions ==> t.suggestions[j].approvedFact != s.approvedFact)
  }

  lemma DecidedSuggestions(t: Tables, id: Id, s: Suggestion)
    requires SuggestionsOk(t) && Decides(t, id, s)
    ensures SuggestionsOk(t.(suggestions := t.suggestions[id := s]))
  {
    var r := t.suggestions[id := s];
    assert SuggestionOk(t, t.suggestions[id]);
    forall i, j | i in r && j in r && SameWaiting(r[i], r[j]) ensures i == j {
      assert i != id && j != id;
    }
    forall i, j | i in r && j in r && SharesFact(r[i], r[j]) ensures i == j {
      assert i != id && j != id ==> t.suggestions[i] == r[i] && t.suggestions[j] == r[j];
    }
  }

  lemma SuggestionDecided(t: Tables, id: Id, s: Suggestion)
    requires Inv(t) && Decides(t, id, s)
    ensures var r := t.(suggestions := t.suggestions[id := s]); Inv(r) && Later(t, r)
  {
    hide FactsOk, SuggestionsOk;
    DecidedSuggestions(t, id, s);
  }

  lemma ApproveInv(t: Tables, project: string, id: Id, a: Approval)
    requires Inv(t)
    ensures var r := ApproveSuggestion(t, project, id, a); Inv(r.tables) && Later(t, r.tables)
  {
    hide FactsOk;
    if ApproveSuggestion(t, project, id, a).reply == Done {
      var s := t.suggestions[id];
      InsertFactInv(t, a.factId, project, Value(a.edited, s.content), s.category, s.scope, s.priority, a.now);
      var mid := InsertFact(t, a.factId, project, Value(a.edited, s.content), s.category, s.scope, s.priority,
          a.now).tables;
      SuggestionDecided(mid, id, s.(status := Accepted, approvedFact := Some(a.factId)));
    }
  }

  lemma SupersedeInv(t: Tables, project: string, oldId: Id, newId: Id, reasonValid: bool)
    requires Inv(t)
    ensures var r := SupersedeFact(t, project, oldId, newId, reasonValid).tables; Inv(r) && Later(t, r)
  {
    hide Inv;
    if SupersedeFact(t, project, oldId, newId, reasonValid).reply == Done {
      Superseded(t, project, oldId, newId);
    }
  }

  lemma LaterTransitive(a: Tables, b: Tables, c: Tables)
    requires Later(a, b) && Later(b, c)
    ensures Later(a, c)
  {}

  lemma EditInv(t: Tables, op: Op)
    requires Inv(t) && (op.DoArchive? || op.DoMarkStale? || op.DoUpdate?)
    ensures Inv(Step(t, op).tables) && Later(t, Step(t, op).tables)
  {
    hide FactsOk;
    if Step(t, op).reply == Done {
      assert FactsOk(t.facts);
      Flags(t.facts);
      FactEdited(t, op.id, Step(t, op).tables.facts[op.id]);
      assert Step(t, op).tables == SetFact(t, op.id, Step(t, op).tables.facts[op.id]);
    }
  }

  /** Every operation keeps the invariant and takes nothing back. */
  lemma StepInv(t: Tables, op: Op)
    requires Inv(t)
    ensures Inv(Step(t, op).tables) && Later(t, Step(t, op).tables)
  {
    hide FactsOk, SuggestionsOk;
    match op
    case DoAdd(id, project, c, category, scope, priority, valid, now) =>
      InsertFactInv(t, id, project, c, category, scope, priority, now);
    case DoArchive(_, _, _) => EditInv(t, op);
    case DoMarkStale(_, _) => EditInv(t, op);
    case DoUpdate(_, _, _) => EditInv(t, op);
    case DoFlagStale(project, cutoff) => FlagStaleInv(t, project, cutoff);
    case DoSupersede(project, oldId, newId, reasonValid) => SupersedeInv(t, project, oldId, newId, reasonValid);
    case DoInsertPending(id, project, c, category, scope, priority, run, valid) =>
      SuggestionInserted(t, id, NewSuggestion(project, c, category, scope, priority, run));
    case DoBootstrap(project, candidates) => BootstrapInv(t, project, candidates);
    case DoApprove(project, id, a) => ApproveInv(t, project, id, a);
    case DoApproveAndSupersede(project, id, oldId, a, reasonValid) =>
      ApproveInv(t, project, id, a);
      var mid := ApproveSuggestion(t, project, id, a).tables;
      SupersedeInv(mid, project, oldId, a.factId, reasonValid);
      LaterTransitive(t, mid, SupersedeFact(mid, project, oldId, a.factId, reasonValid).tables);
    case DoReject(project, id, reasonValid) =>
      if RejectSuggestion(t, project, id, reasonValid).reply == Done {
        SuggestionDecided(t, id, t.suggestions[id].(status := Declined));
      }
  }

  /** Over whole runs, from any state that satisfies the invariant. */
  lemma {:induction false} RunInv(t: Tables, ops: seq<Op>)
    requires Inv(t)
    ensures Inv(RunOps(t, ops)) && Later(t, RunOps(t, ops))
    decreases |ops|
  {
    hide Inv, Step;
    if ops != [] {
      StepInv(t, ops[0]);
      RunInv(Step(t, ops[0]).tables, ops[1..]);
      LaterTransitive(t, Step(t, ops[0]).tables, RunOps(t, ops));
    }
  }

  lemma EmptyInv()
    ensures Inv(EMPTY)
  {
    assert Ordered(EMPTY.facts, []);
  }
}
