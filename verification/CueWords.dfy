/** The words by which a request says what may happen to the files it names, and the lists of files
    behind them (backend/pipeline/file_scope_intent.py). */
module CueWords {
  import opened Wrappers

  /** Roles, highest authority first. */
  datatype Role = Forbidden | Reference | Allowlist | Preferred | Uncertain

  /** A token of the text: the file it names, if it is a file reference, and its lowered form. */
  datatype RawToken = RawToken(path: Option<string>, lowered: string)

  const MODIFY_VERBS := {"use", "using", "modify", "modifying", "update", "updating", "change", "changing",
                         "touch", "touching", "edit", "editing"}
  const FORBID_VERBS := MODIFY_VERBS + {"alter", "altering"}
  const CONNECTORS := {"and", "&", ",", "and/or", "or"}
  const FILLERS := {"the", "a", "an", "both", "these", "those", "files", "file", "to", "in", "into", "within", "of",
                    "just", "only"}

  // ----- cues ----------------------------------------------------------------------------------

  predicate Says(raw: seq<RawToken>, i: nat, word: string) {
    i < |raw| && raw[i].lowered == word
  }

  predicate SaysTwo(raw: seq<RawToken>, i: nat, first: string, second: string) {
    Says(raw, i, first) && Says(raw, i + 1, second)
  }

  predicate SaysOneOf(raw: seq<RawToken>, i: nat, words: set<string>) {
    i < |raw| && raw[i].lowered in words
  }

  /** A verb that may follow, and is then part of the cue. */
  function OptionalVerb(raw: seq<RawToken>, i: nat): nat {
    if SaysOneOf(raw, i, FORBID_VERBS) then 1 else 0
  }

  /** "do not", "don't", "doesn't", "won't", "without", "never", each with or without a verb, and
      "except". */
  predicate ForbidLead(raw: seq<RawToken>, i: nat, start: nat) {
    || (SaysTwo(raw, i, "do", "not") && start == i + 2 + OptionalVerb(raw, i + 2))
    || (SaysOneOf(raw, i, {"dont", "doesnt", "wont", "without", "never"}) && start == i + 1 + OptionalVerb(raw, i + 1))
    || (Says(raw, i, "except") && start == i + 1)
  }

  /** "similar to", "look at", "based on", "refer to", "as in", "like" and "see". */
  predicate ReferenceLead(raw: seq<RawToken>, i: nat, start: nat) {
    || (start == i + 2
        && (SaysTwo(raw, i, "similar", "to") || SaysTwo(raw, i, "look", "at") || SaysTwo(raw, i, "based", "on")
            || SaysTwo(raw, i, "refer", "to") || SaysTwo(raw, i, "as", "in")))
    || (start == i + 1 && SaysOneOf(raw, i, {"like", "see"}))
  }

  /** "only" in front of a verb or behind it. */
  predicate AllowLead(raw: seq<RawToken>, i: nat, start: nat) {
    && start == i + 2
    && ((Says(raw, i, "only") && SaysOneOf(raw, i + 1, MODIFY_VERBS))
        || (SaysOneOf(raw, i, MODIFY_VERBS) && Says(raw, i + 1, "only")))
  }

  /** A verb without "only". */
  predicate PreferLead(raw: seq<RawToken>, i: nat, start: nat) {
    start == i + 1 && SaysOneOf(raw, i, MODIFY_VERBS) && !Says(raw, i + 1, "only")
  }

  /** The tokens from i up to start give this role to the files behind them. */
  predicate Lead(raw: seq<RawToken>, i: nat, role: Role, start: nat) {
    match role
    case Forbidden => ForbidLead(raw, i, start)
    case Reference => ReferenceLead(raw, i, start)
    case Allowlist => AllowLead(raw, i, start)
    case Preferred => PreferLead(raw, i, start)
    case Uncertain => false
  }

  // ----- lists ---------------------------------------------------------------------------------

  /** Files, connectors and fillers from one position to the other. */
  predicate RunOn(raw: seq<RawToken>, from: nat, k: nat)
    requires k < |raw|
  {
    forall j :: from <= j <= k ==> raw[j].path.Some? || raw[j].lowered in CONNECTORS + FILLERS
  }

  predicate FillersTo(raw: seq<RawToken>, from: nat, first: nat)
    requires first <= |raw|
  {
    forall j :: from <= j < first ==> raw[j].path.None? && raw[j].lowered in FILLERS
  }

  /** The file at k is on the list that begins at start: up to three fillers, a file, and then
      nothing but files, connectors and fillers. */
  predicate Listed(raw: seq<RawToken>, start: nat, k: nat) {
    && k < |raw| && raw[k].path.Some?
    && exists first :: start <= first <= k && first <= start + 3 && raw[first].path.Some?
                       && FillersTo(raw, start, first) && RunOn(raw, first, k)
  }

  /** The file at k is named under this role. */
  ghost predicate Said(raw: seq<RawToken>, k: nat, role: Role) {
    exists i: nat, start: nat :: i < |raw| && Lead(raw, i, role, start) && Listed(raw, start, k)
  }

  /** No word of a cue, no connector and no filler. */
  predicate PlainWord(word: string) {
    && word !in FORBID_VERBS + CONNECTORS + FILLERS
    && word !in {"do", "not", "dont", "doesnt", "wont", "without", "never", "except"}
    && word !in {"similar", "look", "at", "based", "on", "refer", "as", "like", "see"}
  }

  /** Nothing in front can swallow the cue at i: a forbidding or referring cue never is; one with
      "only" or a verb alone could be, unless it opens the text or follows a plain word. */
  predicate Clear(raw: seq<RawToken>, i: nat, role: Role)
    requires i < |raw|
  {
    && raw[i].path.None?
    && (role == Forbidden || role == Reference || i == 0
        || (raw[i - 1].path.None? && PlainWord(raw[i - 1].lowered)))
  }

  ghost predicate SaidClearly(raw: seq<RawToken>, k: nat, role: Role) {
    exists i: nat, start: nat :: i < |raw| && Lead(raw, i, role, start) && Clear(raw, i, role) && Listed(raw, start, k)
  }
}
