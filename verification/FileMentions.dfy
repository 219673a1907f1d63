/** Which files a request names, and in what role
    (backend/pipeline/file_scope_intent.py, the extraction half). */
module FileMentions {
  import opened Wrappers
  import opened CueWords

  // ----- tokens ------------------------------------------------------------------------------

  predicate Digit(c: char) {
    '0' <= c <= '9'
  }

  /** A list marker: one of - * +, or one to three digits with a dot or a parenthesis. */
  predicate Bullet(part: string) {
    || part == "-" || part == "*" || part == "+"
    || (2 <= |part| <= 4 && (part[|part| - 1] == '.' || part[|part| - 1] == ')')
        && forall i :: 0 <= i < |part| - 1 ==> Digit(part[i]))
  }

  function LineTokens(parts: seq<string>): seq<string> {
    if parts != [] && Bullet(parts[0]) then parts[1..] else parts
  }

  /** The parts of all lines, without a marker at the start of a line. */
  function Tokens(lines: seq<seq<string>>): seq<string> {
    if lines == [] then [] else Tokens(lines[..|lines| - 1]) + LineTokens(lines[|lines| - 1])
  }

  method Tokenize(lines: seq<seq<string>>) returns (tokens: seq<string>)
    ensures tokens == Tokens(lines)
  {
    tokens := [];
    for i := 0 to |lines|
      invariant tokens == Tokens(lines[..i])
    {
      assert lines[..i + 1][..i] == lines[..i];
      var parts := lines[i];
      if parts != [] && Bullet(parts[0]) {
        parts := parts[1..];
      }
      tokens := tokens + parts;
    }
    assert lines[..|lines|] == lines;
  }

  lemma {:induction false} TokensSplit(lines: seq<seq<string>>, i: nat)
    requires i < |lines|
    ensures Tokens(lines) == Tokens(lines[..i]) + LineTokens(lines[i]) + Tokens(lines[i + 1..])
    decreases |lines|
  {
    hide LineTokens;
    var n := |lines|;
    var tail := lines[i + 1..];
    if i == n - 1 {
      assert tail == [] && lines[..n - 1] == lines[..i];
    } else {
      var front := lines[..n - 1];
      TokensSplit(front, i);
      assert front[..i] == lines[..i];
      assert tail[|tail| - 1] == lines[n - 1];
      FrontTail(lines, i + 1);
      Associate(Tokens(lines[..i]), LineTokens(lines[i]), Tokens(tail[..|tail| - 1]), LineTokens(lines[n - 1]));
    }
  }

  lemma FrontTail(lines: seq<seq<string>>, k: nat)
    requires k < |lines|
    ensures lines[..|lines| - 1][k..] == lines[k..][..|lines| - 1 - k]
  {}

  lemma Associate(a: seq<string>, b: seq<string>, c: seq<string>, d: seq<string>)
    ensures a + b + c + d == a + b + (c + d)
  {}

  /** Adding a marker to a line leaves the tokens alone exactly when the line is not marked
      already: a second marker would keep the first as a word. */
  lemma MarkerIsInvisibleIff(lines: seq<seq<string>>, i: nat, marker: string)
    requires i < |lines| && Bullet(marker)
    ensures Tokens(lines[i := [marker] + lines[i]]) == Tokens(lines) <==> lines[i] == [] || !Bullet(lines[i][0])
  {
    var marked := lines[i := [marker] + lines[i]];
    TokensSplit(lines, i);
    TokensSplit(marked, i);
    assert marked[..i] == lines[..i] && marked[i + 1..] == lines[i + 1..];
    assert LineTokens(marked[i]) == lines[i];
    var a, b := Tokens(lines[..i]), Tokens(lines[i + 1..]);
    if lines[i] != [] && Bullet(lines[i][0]) {
      assert |a + lines[i] + b| == |a + lines[i][1..] + b| + 1;
    }
  }

  // ----- cues -----------------------------------------------------------------------------------

  /** The words that mean something to the scan; verbs and fillers that behave alike share a
      class. */
  datatype Word =
    | Do | Not | Dont | Without | Never | Except
    | Similar | To | Look | At | Based | On | Refer | As | In | Like | See
    | Only | ModifyVerb | AlterVerb
    | Connector | Filler
    | Plain

  function Classify(word: string): Word {
    if word == "do" then Do
    else if word == "not" then Not
    else if word in {"dont", "doesnt", "wont"} then Dont
    else if word == "without" then Without
    else if word == "never" then Never
    else if word == "except" then Except
    else if word == "similar" then Similar
    else if word == "to" then To
    else if word == "look" then Look
    else if word == "at" then At
    else if word == "based" then Based
    else if word == "on" then On
    else if word == "refer" then Refer
    else if word == "as" then As
    else if word == "in" then In
    else if word == "like" then Like
    else if word == "see" then See
    else if word == "only" then Only
    else if word in MODIFY_VERBS then ModifyVerb
    else if word in FORBID_VERBS then AlterVerb
    else if word in CONNECTORS then Connector
    else if word in FILLERS then Filler
    else Plain
  }

  /** A token as the scan sees it. */
  datatype Token = Token(path: Option<string>, word: Word)

  function Read(raw: seq<RawToken>): (tokens: seq<Token>)
    ensures |tokens| == |raw|
    ensures forall i :: 0 <= i < |raw| ==> tokens[i] == Token(raw[i].path, Classify(raw[i].lowered))
  {
    seq(|raw|, i requires 0 <= i < |raw| => Token(raw[i].path, Classify(raw[i].lowered)))
  }

  predicate ForbidVerb(w: Word) {
    w == ModifyVerb || w == AlterVerb
  }

  /** "to", "in" and "only" are fillers as well as parts of cues. */
  predicate IsFiller(w: Word) {
    w == Filler || w == To || w == In || w == Only
  }

  /** Every word a cue can be made of. */
  predicate CueWord(w: Word) {
    w != Connector && w != Filler && w != Plain
  }

  datatype Cue = NoCue | Cue(role: Role, consumed: nat)

  function WordAt(tokens: seq<Token>, i: nat): Word {
    if i < |tokens| then tokens[i].word else Plain
  }

  /** The cue that starts at i, with the number of tokens it takes. */
  function MatchCue(tokens: seq<Token>, i: nat): (c: Cue)
    requires i < |tokens|
    ensures c.Cue? ==> 1 <= c.consumed <= |tokens| - i && c.role != Uncertain
    ensures c.Cue? ==> forall k :: i <= k < i + c.consumed ==> CueWord(tokens[k].word)
  {
    var tok, nxt := tokens[i].word, WordAt(tokens, i + 1);
    if tok == Do && nxt == Not then Cue(Forbidden, if ForbidVerb(WordAt(tokens, i + 2)) then 3 else 2)
    else if tok == Dont || tok == Without || tok == Never then Cue(Forbidden, if ForbidVerb(nxt) then 2 else 1)
    else if tok == Except then Cue(Forbidden, 1)
    else if tok == Similar && nxt == To then Cue(Reference, 2)
    else if tok == Look && nxt == At then Cue(Reference, 2)
    else if tok == Based && nxt == On then Cue(Reference, 2)
    else if tok == Refer && nxt == To then Cue(Reference, 2)
    else if tok == As && nxt == In then Cue(Reference, 2)
    else if tok == Like || tok == See then Cue(Reference, 1)
    else if tok == Only && nxt == ModifyVerb then Cue(Allowlist, 2)
    else if tok == ModifyVerb && nxt == Only then Cue(Allowlist, 2)
    else if tok == ModifyVerb then Cue(Preferred, 1)
    else NoCue
  }

  // ----- what the words mean ------------------------------------------------------------------

  lemma WordsOne(word: string)
    ensures Classify(word) == Do <==> word == "do"
    ensures Classify(word) == Not <==> word == "not"
    ensures Classify(word) == Dont <==> word in {"dont", "doesnt", "wont"}
    ensures Classify(word) == Without <==> word == "without"
    ensures Classify(word) == Never <==> word == "never"
    ensures Classify(word) == Except <==> word == "except"
  {}

  lemma WordsTwo(word: string)
    ensures Classify(word) == Similar <==> word == "similar"
    ensures Classify(word) == To <==> word == "to"
    ensures Classify(word) == Look <==> word == "look"
    ensures Classify(word) == At <==> word == "at"
    ensures Classify(word) == Based <==> word == "based"
    ensures Classify(word) == On <==> word == "on"
  {}

  lemma WordsThree(word: string)
    ensures Classify(word) == Refer <==> word == "refer"
    ensures Classify(word) == As <==> word == "as"
    ensures Classify(word) == In <==> word == "in"
  {}

  lemma WordsFour(word: string)
    ensures Classify(word) == Like <==> word == "like"
    ensures Classify(word) == See <==> word == "see"
    ensures Classify(word) == Only <==> word == "only"
  {}

  lemma ModifyWords(word: string)
    ensures Classify(word) == ModifyVerb <==> word in MODIFY_VERBS
  {
    if word in {"use", "using", "modify", "modifying"} {
      ModifyWordsOne(word);
    } else if word in {"update", "updating", "change", "changing"} {
      ModifyWordsTwo(word);
    } else if word in {"touch", "touching", "edit", "editing"} {
      ModifyWordsThree(word);
    }
  }

  lemma ModifyWordsOne(word: string)
    requires word in {"use", "using", "modify", "modifying"}
    ensures Classify(word) == ModifyVerb
  {}

  lemma ModifyWordsTwo(word: string)
    requires word in {"update", "updating", "change", "changing"}
    ensures Classify(word) == ModifyVerb
  {}

  lemma ModifyWordsThree(word: string)
    requires word in {"touch", "touching", "edit", "editing"}
    ensures Classify(word) == ModifyVerb
  {}

  lemma ForbidWords(word: string)
    ensures ForbidVerb(Classify(word)) <==> word in FORBID_VERBS
  {}

  lemma ConnectorWords(word: string)
    ensures Classify(word) == Connector <==> word in CONNECTORS
  {}

  lemma FillerWords(word: string)
    ensures IsFiller(Classify(word)) <==> word in FILLERS
  {
    hide Classify;
    WordsTwo(word);
    WordsThree(word);
    WordsFour(word);
    FillerOnly(word);
    if word in {"the", "a", "an"} {
      ArticleWords(word);
    } else if word in {"both", "these", "those"} {
      PointingWords(word);
    } else if word in {"files", "file", "just"} {
      FileWords(word);
    } else if word in {"into", "within", "of"} {
      PlaceWords(word);
    }
  }

  lemma ArticleWords(word: string)
    requires word in {"the", "a", "an"}
    ensures Classify(word) == Filler
  {}

  lemma PointingWords(word: string)
    requires word in {"both", "these", "those"}
    ensures Classify(word) == Filler
  {}

  lemma FileWords(word: string)
    requires word in {"files", "file", "just"}
    ensures Classify(word) == Filler
  {}

  lemma PlaceWords(word: string)
    requires word in {"into", "within", "of"}
    ensures Classify(word) == Filler
  {}

  lemma FillerOnly(word: string)
    ensures Classify(word) == Filler ==> word in FILLERS
  {
    hide MODIFY_VERBS, FORBID_VERBS;
  }

  lemma PlainWords(word: string)
    ensures Classify(word) == Plain <==> PlainWord(word)
  {}

  /** The word classes of one token, by its spelling. */
  lemma Spelling(word: string)
    ensures Classify(word) == Do <==> word == "do"
    ensures Classify(word) == Not <==> word == "not"
    ensures Classify(word) in {Dont, Without, Never} <==> word in {"dont", "doesnt", "wont", "without", "never"}
    ensures Classify(word) == Except <==> word == "except"
    ensures Classify(word) == Similar <==> word == "similar"
    ensures Classify(word) == To <==> word == "to"
    ensures Classify(word) == Look <==> word == "look"
    ensures Classify(word) == At <==> word == "at"
    ensures Classify(word) == Based <==> word == "based"
    ensures Classify(word) == On <==> word == "on"
    ensures Classify(word) == Refer <==> word == "refer"
    ensures Classify(word) == As <==> word == "as"
    ensures Classify(word) == In <==> word == "in"
    ensures Classify(word) in {Like, See} <==> word in {"like", "see"}
    ensures Classify(word) == Only <==> word == "only"
    ensures Classify(word) == ModifyVerb <==> word in MODIFY_VERBS
    ensures ForbidVerb(Classify(word)) <==> word in FORBID_VERBS
  {
    hide Classify;
    WordsOne(word);
    WordsTwo(word);
    WordsThree(word);
    WordsFour(word);
    ModifyWords(word);
    ForbidWords(word);
  }

  lemma SpellingAt(raw: seq<RawToken>, i: nat)
    requires i < |raw|
    ensures var w := Read(raw)[i].word;
            && (w == Do <==> Says(raw, i, "do")) && (w == Not <==> Says(raw, i, "not"))
            && (w in {Dont, Without, Never} <==> SaysOneOf(raw, i, {"dont", "doesnt", "wont", "without", "never"}))
            && (w == Except <==> Says(raw, i, "except"))
            && (w == Similar <==> Says(raw, i, "similar")) && (w == To <==> Says(raw, i, "to"))
            && (w == Look <==> Says(raw, i, "look")) && (w == At <==> Says(raw, i, "at"))
            && (w == Based <==> Says(raw, i, "based")) && (w == On <==> Says(raw, i, "on"))
            && (w == Refer <==> Says(raw, i, "refer")) && (w == As <==> Says(raw, i, "as"))
            && (w == In <==> Says(raw, i, "in")) && (w in {Like, See} <==> SaysOneOf(raw, i, {"like", "see"}))
            && (w == Only <==> Says(raw, i, "only")) && (w == ModifyVerb <==> SaysOneOf(raw, i, MODIFY_VERBS))
            && (ForbidVerb(w) <==> SaysOneOf(raw, i, FORBID_VERBS))
  {
    hide Classify, MODIFY_VERBS, FORBID_VERBS;
    Spelling(raw[i].lowered);
  }

  /** The words of forbidding cues, at i or behind the end. */
  lemma ForbidSpelling(raw: seq<RawToken>, i: nat)
    ensures var w := WordAt(Read(raw), i);
            && (w == Do <==> Says(raw, i, "do")) && (w == Not <==> Says(raw, i, "not"))
            && (w in {Dont, Without, Never} <==> SaysOneOf(raw, i, {"dont", "doesnt", "wont", "without", "never"}))
            && (w == Except <==> Says(raw, i, "except"))
            && (ForbidVerb(w) <==> SaysOneOf(raw, i, FORBID_VERBS))
  {
    hide Classify, MODIFY_VERBS, FORBID_VERBS, Says, SaysOneOf;
    if i < |raw| {
      SpellingAt(raw, i);
    } else {
      NothingSaid(raw, i);
    }
  }

  lemma ReferenceSpelling(raw: seq<RawToken>, i: nat)
    ensures var w := WordAt(Read(raw), i);
            && (w == Similar <==> Says(raw, i, "similar")) && (w == To <==> Says(raw, i, "to"))
            && (w == Look <==> Says(raw, i, "look")) && (w == At <==> Says(raw, i, "at"))
            && (w == Based <==> Says(raw, i, "based")) && (w == On <==> Says(raw, i, "on"))
            && (w == Refer <==> Says(raw, i, "refer")) && (w == As <==> Says(raw, i, "as"))
            && (w == In <==> Says(raw, i, "in")) && (w in {Like, See} <==> SaysOneOf(raw, i, {"like", "see"}))
  {
    hide Classify, MODIFY_VERBS, FORBID_VERBS, Says, SaysOneOf;
    if i < |raw| {
      SpellingAt(raw, i);
    } else {
      NothingSaid(raw, i);
    }
  }

  lemma VerbSpelling(raw: seq<RawToken>, i: nat)
    ensures var w := WordAt(Read(raw), i);
            (w == Only <==> Says(raw, i, "only")) && (w == ModifyVerb <==> SaysOneOf(raw, i, MODIFY_VERBS))
  {
    hide Classify, MODIFY_VERBS, FORBID_VERBS, Says, SaysOneOf;
    if i < |raw| {
      SpellingAt(raw, i);
    } else {
      NothingSaid(raw, i);
    }
  }

  lemma ForbidIff(raw: seq<RawToken>, i: nat, start: nat)
    requires i < |raw|
    ensures ForbidLead(raw, i, start) <==> start > i && MatchCue(Read(raw), i) == Cue(Forbidden, start - i)
  {
    hide Classify, MODIFY_VERBS, FORBID_VERBS, Says, SaysOneOf, ForbidVerb, Read;
    ForbidSpelling(raw, i);
    ForbidSpelling(raw, i + 1);
    ForbidSpelling(raw, i + 2);
  }

  lemma ReferenceIff(raw: seq<RawToken>, i: nat, start: nat)
    requires i < |raw|
    ensures ReferenceLead(raw, i, start) <==> start > i && MatchCue(Read(raw), i) == Cue(Reference, start - i)
  {
    hide Classify, MODIFY_VERBS, FORBID_VERBS, Says, SaysOneOf, ForbidVerb, Read;
    ReferenceSpelling(raw, i);
    ReferenceSpelling(raw, i + 1);
  }

  lemma VerbIff(raw: seq<RawToken>, i: nat, start: nat)
    requires i < |raw|
    ensures AllowLead(raw, i, start) <==> start > i && MatchCue(Read(raw), i) == Cue(Allowlist, start - i)
    ensures PreferLead(raw, i, start) <==> start > i && MatchCue(Read(raw), i) == Cue(Preferred, start - i)
  {
    hide Classify, MODIFY_VERBS, FORBID_VERBS, Says, SaysOneOf, ForbidVerb, Read;
    VerbSpelling(raw, i);
    VerbSpelling(raw, i + 1);
  }

  /** The leading words decide the role, and how many of them belong to the cue. */
  lemma LeadIff(raw: seq<RawToken>, i: nat, role: Role, start: nat)
    requires i < |raw|
    ensures Lead(raw, i, role, start) <==> start > i && MatchCue(Read(raw), i) == Cue(role, start - i)
  {
    hide MatchCue, ForbidLead, ReferenceLead, AllowLead, PreferLead;
    match role
    case Forbidden => ForbidIff(raw, i, start);
    case Reference => ReferenceIff(raw, i, start);
    case Uncertain =>
    case _ => VerbIff(raw, i, start);
  }

  lemma NothingSaid(raw: seq<RawToken>, i: nat)
    requires i >= |raw|
    ensures forall word :: !Says(raw, i, word)
    ensures forall words :: !SaysOneOf(raw, i, words)
  {}

  // ----- the list behind a cue -------------------------------------------------------------------

  predicate Glue(t: Token) {
    t.word == Connector || IsFiller(t.word)
  }

  /** Where the list that is being collected ends. */
  function CollectEnd(tokens: seq<Token>, j: nat, started: bool, skipped: nat): (e: nat)
    requires j <= |tokens|
    ensures j <= e <= |tokens|
    ensures forall k :: j <= k < e ==> tokens[k].path.Some? || Glue(tokens[k])
    ensures e < |tokens| ==> tokens[e].path.None?
    decreases |tokens| - j
  {
    if j == |tokens| then j
    else if tokens[j].path.Some? then CollectEnd(tokens, j + 1, true, skipped)
    else if !Glue(tokens[j]) then j
    else if started then CollectEnd(tokens, j + 1, started, skipped)
    else if !IsFiller(tokens[j].word) || skipped + 1 > 3 then j
    else CollectEnd(tokens, j + 1, started, skipped + 1)
  }

  datatype Mention = Mention(at: nat, path: string, role: Role)

  /** A mention for each file token from `from` up until `until`. */
  function MentionsIn(tokens: seq<Token>, from: nat, until: nat, role: Role): seq<Mention>
    requires from <= until <= |tokens|
    decreases until
  {
    if from == until then []
    else
      var front := MentionsIn(tokens, from, until - 1, role);
      if tokens[until - 1].path.Some? then front + [Mention(until - 1, tokens[until - 1].path.value, role)] else front
  }

  // ----- the scan ------------------------------------------------------------------------------------

  /** All mentions from i on: cue by cue, and token by token where no cue starts. */
  function Scan(tokens: seq<Token>, i: nat): seq<Mention>
    requires i <= |tokens|
    decreases |tokens| - i
  {
    if i == |tokens| then []
    else
      var c := MatchCue(tokens, i);
      if c.Cue? then
        var e := CollectEnd(tokens, i + c.consumed, false, 0);
        MentionsIn(tokens, i + c.consumed, e, c.role) + Scan(tokens, e)
      else
        (if tokens[i].path.Some? then [Mention(i, tokens[i].path.value, Uncertain)] else []) + Scan(tokens, i + 1)
  }

  /** The mentions are file tokens, in text order, none twice. */
  ghost predicate InOrder(tokens: seq<Token>, from: nat, until: nat, mentions: seq<Mention>)
    requires from <= until <= |tokens|
  {
    && (forall m :: 0 <= m < |mentions| ==>
        from <= mentions[m].at < until && tokens[mentions[m].at].path == Some(mentions[m].path))
    && (forall m, k :: 0 <= m < k < |mentions| ==> mentions[m].at < mentions[k].at)
  }

  predicate MentionedAt(mentions: seq<Mention>, k: nat) {
    exists m :: 0 <= m < |mentions| && mentions[m].at == k
  }

  lemma {:induction false} MentionsInCover(tokens: seq<Token>, from: nat, until: nat, role: Role)
    requires from <= until <= |tokens|
    ensures InOrder(tokens, from, until, MentionsIn(tokens, from, until, role))
    ensures forall k :: from <= k < until && tokens[k].path.Some? ==>
              MentionedAt(MentionsIn(tokens, from, until, role), k)
    ensures forall m :: m in MentionsIn(tokens, from, until, role) ==> m.role == role
    decreases until
  {
    hide MentionedAt, InOrder, MentionsIn;
    MentionsStep(tokens, from, until, role);
    if from == until {
      NothingInOrder(tokens, from);
    } else {
      MentionsInCover(tokens, from, until - 1, role);
      LastMention(tokens, from, until, MentionsIn(tokens, from, until - 1, role), role);
      if tokens[until - 1].path.Some? {
        OneMore(MentionsIn(tokens, from, until - 1, role), Mention(until - 1, tokens[until - 1].path.value, role));
      }
    }
  }

  lemma MentionsStep(tokens: seq<Token>, from: nat, until: nat, role: Role)
    requires from <= until <= |tokens|
    ensures MentionsIn(tokens, from, until, role) ==
            if from == until then []
            else if tokens[until - 1].path.Some? then
              MentionsIn(tokens, from, until - 1, role) + [Mention(until - 1, tokens[until - 1].path.value, role)]
            else MentionsIn(tokens, from, until - 1, role)
  {}

  lemma NothingInOrder(tokens: seq<Token>, at: nat)
    requires at <= |tokens|
    ensures InOrder(tokens, at, at, [])
  {}

  lemma LastMention(tokens: seq<Token>, from: nat, until: nat, front: seq<Mention>, role: Role)
    requires from < until <= |tokens| && InOrder(tokens, from, until - 1, front)
    ensures InOrder(tokens, from, until, front)
    ensures tokens[until - 1].path.Some? ==>
              InOrder(tokens, from, until, front + [Mention(until - 1, tokens[until - 1].path.value, role)])
  {}

  lemma OneMore(front: seq<Mention>, last: Mention)
    ensures MentionedAt(front + [last], last.at)
    ensures forall k :: MentionedAt(front, k) ==> MentionedAt(front + [last], k)
  {
    var r := front + [last];
    assert r[|front|] == last;
    forall k | MentionedAt(front, k) ensures MentionedAt(r, k) {
      var m :| 0 <= m < |front| && front[m].at == k;
      assert r[m].at == k;
    }
  }

  lemma Joined(tokens: seq<Token>, from: nat, mid: nat, a: seq<Mention>, b: seq<Mention>)
    requires from <= mid <= |tokens| && InOrder(tokens, from, mid, a) && InOrder(tokens, mid, |tokens|, b)
    ensures InOrder(tokens, from, |tokens|, a + b)
    ensures forall k :: MentionedAt(a, k) || MentionedAt(b, k) ==> MentionedAt(a + b, k)
  {
    forall k | MentionedAt(a, k) || MentionedAt(b, k) ensures MentionedAt(a + b, k) {
      if MentionedAt(a, k) {
        var m :| 0 <= m < |a| && a[m].at == k;
        assert (a + b)[m].at == k;
      } else {
        var m :| 0 <= m < |b| && b[m].at == k;
        assert (a + b)[|a| + m].at == k;
      }
    }
  }

  /** The scan mentions each file token once and skips none, unless its word is part of a cue. */
  lemma {:induction false} ScanCovers(tokens: seq<Token>, i: nat)
    requires i <= |tokens|
    ensures InOrder(tokens, i, |tokens|, Scan(tokens, i)) && Covered(tokens, i, |tokens|, Scan(tokens, i))
    decreases |tokens| - i
  {
    hide Scan, MatchCue, CollectEnd, Covered;
    if i == |tokens| {
      ScanEnd(tokens);
      NothingInOrder(tokens, |tokens|);
      NothingCovered(tokens);
    } else {
      ScanStep(tokens, i);
      var c := MatchCue(tokens, i);
      if c.Cue? {
        var e := CollectEnd(tokens, i + c.consumed, false, 0);
        ScanCovers(tokens, e);
        CueStepCovers(tokens, i, c, e, Scan(tokens, e));
      } else {
        ScanCovers(tokens, i + 1);
        PlainStepCovers(tokens, i, Scan(tokens, i + 1));
      }
    }
  }

  /** Every file token from i on, unless its word is part of a cue, is mentioned. */
  ghost predicate Covered(tokens: seq<Token>, i: nat, until: nat, mentions: seq<Mention>)
    requires i <= until <= |tokens|
  {
    forall k :: i <= k < until && tokens[k].path.Some? && !CueWord(tokens[k].word) ==> MentionedAt(mentions, k)
  }

  lemma NothingCovered(tokens: seq<Token>)
    ensures Covered(tokens, |tokens|, |tokens|, [])
  {}

  lemma JoinedCovers(tokens: seq<Token>, i: nat, mid: nat, a: seq<Mention>, b: seq<Mention>)
    requires i <= mid <= |tokens| && Covered(tokens, i, mid, a) && Covered(tokens, mid, |tokens|, b)
    requires forall k :: MentionedAt(a, k) || MentionedAt(b, k) ==> MentionedAt(a + b, k)
    ensures Covered(tokens, i, |tokens|, a + b)
  {
    hide MentionedAt, CueWord;
  }

  /** A cue, with the list behind it. */
  lemma CueStepCovers(tokens: seq<Token>, i: nat, c: Cue, e: nat, rest: seq<Mention>)
    requires i < |tokens| && c == MatchCue(tokens, i) && c.Cue? && i + c.consumed <= e <= |tokens|
    requires InOrder(tokens, e, |tokens|, rest) && Covered(tokens, e, |tokens|, rest)
    ensures var r := MentionsIn(tokens, i + c.consumed, e, c.role) + rest;
            InOrder(tokens, i, |tokens|, r) && Covered(tokens, i, |tokens|, r)
  {
    hide MatchCue, MentionsIn, InOrder, MentionedAt, CueWord;
    var list := MentionsIn(tokens, i + c.consumed, e, c.role);
    MentionsInCover(tokens, i + c.consumed, e, c.role);
    EarlierStart(tokens, i, i + c.consumed, e, list);
    Joined(tokens, i, e, list, rest);
    JoinedCovers(tokens, i, e, list, rest);
  }

  /** A token at which no cue starts. */
  lemma PlainStepCovers(tokens: seq<Token>, i: nat, rest: seq<Mention>)
    requires i < |tokens|
    requires InOrder(tokens, i + 1, |tokens|, rest) && Covered(tokens, i + 1, |tokens|, rest)
    ensures var head := if tokens[i].path.Some? then [Mention(i, tokens[i].path.value, Uncertain)] else [];
            InOrder(tokens, i, |tokens|, head + rest) && Covered(tokens, i, |tokens|, head + rest)
  {
    hide InOrder, MentionedAt, CueWord;
    var head := if tokens[i].path.Some? then [Mention(i, tokens[i].path.value, Uncertain)] else [];
    OneMention(tokens, i, head);
    Joined(tokens, i, i + 1, head, rest);
    JoinedCovers(tokens, i, i + 1, head, rest);
  }

  lemma EarlierStart(tokens: seq<Token>, i: nat, from: nat, until: nat, list: seq<Mention>)
    requires i <= from <= until <= |tokens| && InOrder(tokens, from, until, list)
    ensures InOrder(tokens, i, until, list)
  {}

  lemma OneMention(tokens: seq<Token>, i: nat, head: seq<Mention>)
    requires i < |tokens|
    requires head == if tokens[i].path.Some? then [Mention(i, tokens[i].path.value, Uncertain)] else []
    ensures InOrder(tokens, i, i + 1, head) && (tokens[i].path.Some? ==> MentionedAt(head, i))
  {
    assert tokens[i].path.Some? ==> head[0].at == i;
  }

  // ----- lists, by their words ------------------------------------------------------------------

  lemma GlueIff(raw: seq<RawToken>, i: nat)
    requires i < |raw|
    ensures Glue(Read(raw)[i]) <==> raw[i].lowered in CONNECTORS + FILLERS
    ensures IsFiller(Read(raw)[i].word) <==> raw[i].lowered in FILLERS
    ensures Read(raw)[i].path == raw[i].path
  {
    hide Classify, CONNECTORS, FILLERS;
    ConnectorWords(raw[i].lowered);
    FillerWords(raw[i].lowered);
  }

  /** Once a list has its first file it goes on as far as files, connectors and fillers do. */
  lemma {:induction false} CollectStarted(raw: seq<RawToken>, j: nat, skipped: nat, k: nat)
    requires j <= k < |raw|
    ensures k < CollectEnd(Read(raw), j, true, skipped) <==> RunOn(raw, j, k)
    decreases k - j
  {
    hide CONNECTORS, FILLERS, Glue, CollectEnd, RunOn, Read, IsFiller, Classify;
    GlueIff(raw, j);
    CollectOn(raw, j, skipped);
    RunOnStep(raw, j, k);
    if j < k {
      CollectStarted(raw, j + 1, skipped, k);
    }
  }

  lemma CollectOn(raw: seq<RawToken>, j: nat, skipped: nat)
    requires j < |raw|
    ensures var tokens := Read(raw);
            CollectEnd(tokens, j, true, skipped) ==
            if tokens[j].path.Some? || Glue(tokens[j]) then CollectEnd(tokens, j + 1, true, skipped) else j
  {}

  /** A first file in reach, and a list that goes on from there. */
  ghost predicate Opens(raw: seq<RawToken>, j: nat, skipped: nat, first: nat, k: nat)
    requires k < |raw|
  {
    && j <= first <= k && first - j + skipped <= 3 && raw[first].path.Some?
    && FillersTo(raw, j, first) && RunOn(raw, first, k)
  }

  ghost predicate CanOpen(raw: seq<RawToken>, j: nat, skipped: nat, k: nat)
    requires k < |raw|
  {
    exists first :: Opens(raw, j, skipped, first, k)
  }

  lemma {:induction false} CollectFresh(raw: seq<RawToken>, j: nat, skipped: nat, k: nat)
    requires j <= k < |raw| && raw[k].path.Some? && skipped <= 3
    ensures k < CollectEnd(Read(raw), j, false, skipped) <==> CanOpen(raw, j, skipped, k)
    decreases k - j
  {
    hide CONNECTORS, FILLERS, Glue, CollectEnd;
    GlueIff(raw, j);
    CollectStep(raw, j, skipped);
    if raw[j].path.Some? {
      if j < k {
        CollectStarted(raw, j + 1, skipped, k);
      }
      RunOnStep(raw, j, k);
      FirstIsHere(raw, j, skipped, k);
    } else {
      if j < k && skipped < 3 {
        CollectFresh(raw, j + 1, skipped + 1, k);
      }
      FirstIsLater(raw, j, skipped, k);
    }
  }

  lemma CollectStep(raw: seq<RawToken>, j: nat, skipped: nat)
    requires j < |raw|
    ensures var tokens := Read(raw);
            CollectEnd(tokens, j, false, skipped) ==
            if tokens[j].path.Some? then CollectEnd(tokens, j + 1, true, skipped)
            else if IsFiller(tokens[j].word) && skipped < 3 then CollectEnd(tokens, j + 1, false, skipped + 1)
            else j
  {}

  lemma RunOnStep(raw: seq<RawToken>, j: nat, k: nat)
    requires j <= k < |raw|
    ensures RunOn(raw, j, k) <==>
              (raw[j].path.Some? || raw[j].lowered in CONNECTORS + FILLERS) && (j < k ==> RunOn(raw, j + 1, k))
  {
    hide CONNECTORS, FILLERS;
  }

  lemma FirstIsHere(raw: seq<RawToken>, j: nat, skipped: nat, k: nat)
    requires j <= k < |raw| && raw[j].path.Some? && skipped <= 3
    ensures CanOpen(raw, j, skipped, k) <==> RunOn(raw, j, k)
  {
    hide CONNECTORS, FILLERS;
    if RunOn(raw, j, k) {
      assert Opens(raw, j, skipped, j, k);
    }
  }

  lemma FirstIsLater(raw: seq<RawToken>, j: nat, skipped: nat, k: nat)
    requires j <= k < |raw| && raw[j].path.None? && raw[k].path.Some? && skipped <= 3
    ensures CanOpen(raw, j, skipped, k) <==>
              raw[j].lowered in FILLERS && skipped < 3 && CanOpen(raw, j + 1, skipped + 1, k)
  {
    hide CONNECTORS, FILLERS, RunOn;
    if first: nat :| Opens(raw, j, skipped, first, k) {
      assert Opens(raw, j + 1, skipped + 1, first, k);
    }
    if raw[j].lowered in FILLERS && skipped < 3 && CanOpen(raw, j + 1, skipped + 1, k) {
      var first: nat :| Opens(raw, j + 1, skipped + 1, first, k);
      assert Opens(raw, j, skipped, first, k);
    }
  }

  /** The list that begins at `start`, said of the words alone. */
  lemma ListedIff(raw: seq<RawToken>, start: nat, k: nat)
    requires start <= |raw| && k < |raw| && raw[k].path.Some?
    ensures Listed(raw, start, k) <==> start <= k < CollectEnd(Read(raw), start, false, 0)
  {
    hide CONNECTORS, FILLERS, CollectEnd, FillersTo, RunOn;
    if start <= k {
      CollectFresh(raw, start, 0, k);
      forall first | start <= first <= k && first <= start + 3 && raw[first].path.Some?
                     && FillersTo(raw, start, first) && RunOn(raw, first, k)
        ensures Opens(raw, start, 0, first, k)
      {}
      assert CanOpen(raw, start, 0, k) <==> Listed(raw, start, k);
    }
  }

  // ----- roles and buckets ------------------------------------------------------------------------------

  predicate HasRole(mentions: seq<Mention>, path: string, role: Role) {
    exists m :: 0 <= m < |mentions| && mentions[m].path == path && mentions[m].role == role
  }

  predicate Higher(a: Role, b: Role) {
    Rank(a) < Rank(b)
  }

  function Rank(r: Role): nat {
    match r
    case Forbidden => 0
    case Reference => 1
    case Allowlist => 2
    case Preferred => 3
    case Uncertain => 4
  }

  /** The role among all mentions of the path that outranks the others. */
  predicate TopRole(mentions: seq<Mention>, path: string, role: Role) {
    HasRole(mentions, path, role) && forall r :: Higher(r, role) ==> !HasRole(mentions, path, r)
  }

  // ----- which cues the scan gets to -------------------------------------------------------------

  /** Where the scan goes on after position i. */
  function Next(tokens: seq<Token>, i: nat): (e: nat)
    requires i < |tokens|
    ensures i < e <= |tokens|
  {
    var c := MatchCue(tokens, i);
    if c.Cue? then CollectEnd(tokens, i + c.consumed, false, 0) else i + 1
  }

  /** The scan that is at i gets to k. */
  ghost predicate Reaches(tokens: seq<Token>, i: nat, k: nat)
    requires k <= |tokens|
    decreases |tokens| - i
  {
    i == k || (i < k && Reaches(tokens, Next(tokens, i), k))
  }

  /** A word no cue takes behind its first word and no list takes at all. */
  predicate Unswallowed(w: Word) {
    w in {Do, Dont, Without, Never, Except, Similar, Look, Based, Refer, As, Like, See, Plain}
  }

  lemma CueTakes(tokens: seq<Token>, i: nat, k: nat)
    requires i < |tokens| && MatchCue(tokens, i).Cue? && i < k < i + MatchCue(tokens, i).consumed
    ensures k < |tokens| && !Unswallowed(tokens[k].word)
  {}

  lemma ListStops(tokens: seq<Token>, j: nat, k: nat)
    requires j <= k < |tokens| && tokens[k].path.None? && !Glue(tokens[k])
    ensures CollectEnd(tokens, j, false, 0) <= k
  {
    hide CollectEnd;
  }

  lemma NextIsBefore(tokens: seq<Token>, i: nat, k: nat)
    requires i < k < |tokens| && tokens[k].path.None? && Unswallowed(tokens[k].word)
    ensures Next(tokens, i) <= k
  {
    hide MatchCue, CollectEnd;
    var c := MatchCue(tokens, i);
    if c.Cue? {
      if k < i + c.consumed {
        CueTakes(tokens, i, k);
      } else {
        ListStops(tokens, i + c.consumed, k);
      }
    }
  }

  lemma {:induction false} NotSwallowed(tokens: seq<Token>, i: nat, k: nat)
    requires i <= k < |tokens| && tokens[k].path.None? && Unswallowed(tokens[k].word)
    ensures Reaches(tokens, i, k)
    decreases k - i
  {
    hide Next, Unswallowed;
    if i < k {
      NextIsBefore(tokens, i, k);
      NotSwallowed(tokens, Next(tokens, i), k);
    }
  }

  lemma {:induction false} ReachesOn(tokens: seq<Token>, i: nat, k: nat)
    requires k < |tokens| && Reaches(tokens, i, k)
    ensures Reaches(tokens, i, Next(tokens, k))
    decreases |tokens| - i
  {
    hide Next;
    if i < k {
      ReachesOn(tokens, Next(tokens, i), k);
      assert Next(tokens, i) <= k;
    }
  }

  lemma ScanNext(tokens: seq<Token>, i: nat)
    requires i < |tokens|
    ensures exists front :: Scan(tokens, i) == front + Scan(tokens, Next(tokens, i))
  {
    hide MatchCue, CollectEnd, MentionsIn;
    ScanStep(tokens, i);
  }

  lemma {:induction false} ReachMentions(tokens: seq<Token>, i: nat, k: nat, m: Mention)
    requires k <= |tokens| && Reaches(tokens, i, k) && m in Scan(tokens, k)
    ensures i <= |tokens| && m in Scan(tokens, i)
    decreases |tokens| - i
  {
    hide Next, Scan;
    if i < k {
      ReachMentions(tokens, Next(tokens, i), k, m);
      ScanNext(tokens, i);
    }
  }

  lemma ReachRole(tokens: seq<Token>, k: nat, m: Mention)
    requires k <= |tokens| && Reaches(tokens, 0, k) && m in Scan(tokens, k)
    ensures HasRole(Scan(tokens, 0), m.path, m.role)
  {
    hide Scan, Reaches;
    ReachMentions(tokens, 0, k, m);
    var mentions := Scan(tokens, 0);
    var j :| 0 <= j < |mentions| && mentions[j] == m;
    assert mentions[j].path == m.path;
  }

  lemma UnswallowedWords(raw: seq<RawToken>, i: nat)
    requires i < |raw|
    ensures PlainWord(raw[i].lowered) ==> Read(raw)[i].word == Plain
    ensures forall start :: ForbidLead(raw, i, start) || ReferenceLead(raw, i, start) ==> Unswallowed(Read(raw)[i].word)
  {
    hide Classify, MODIFY_VERBS, FORBID_VERBS;
    PlainWords(raw[i].lowered);
    SpellingAt(raw, i);
  }

  lemma PlainIsNoCue(tokens: seq<Token>, i: nat)
    requires i < |tokens| && tokens[i].word == Plain
    ensures Next(tokens, i) == i + 1
  {}

  /** The scan gets to every cue that nothing in front can swallow. */
  lemma ClearIsReached(raw: seq<RawToken>, i: nat, role: Role, start: nat)
    requires i < |raw| && Lead(raw, i, role, start) && Clear(raw, i, role)
    ensures Reaches(Read(raw), 0, i)
  {
    hide Classify, MatchCue, CollectEnd, ForbidLead, ReferenceLead, AllowLead, PreferLead, PlainWord, Next;
    var tokens := Read(raw);
    UnswallowedWords(raw, i);
    if role == Forbidden || role == Reference {
      NotSwallowed(tokens, 0, i);
    } else if i > 0 {
      UnswallowedWords(raw, i - 1);
      NotSwallowed(tokens, 0, i - 1);
      ReachesOn(tokens, 0, i - 1);
      PlainIsNoCue(tokens, i - 1);
    }
  }

  /** A file on the list behind a clear cue has the cue's role. */
  lemma SaidHasRole(raw: seq<RawToken>, k: nat, role: Role)
    requires SaidClearly(raw, k, role)
    ensures k < |raw| && raw[k].path.Some? && HasRole(Scan(Read(raw), 0), raw[k].path.value, role)
  {
    hide Lead, Clear, Listed, Scan, Reaches, HasRole;
    var i: nat, start: nat :| i < |raw| && Lead(raw, i, role, start) && Clear(raw, i, role) && Listed(raw, start, k);
    ListedFile(raw, start, k);
    ClearIsReached(raw, i, role, start);
    SaidIsMentioned(raw, i, role, start, k);
    ReachRole(Read(raw), i, Mention(k, raw[k].path.value, role));
  }

  lemma SaidIsMentioned(raw: seq<RawToken>, i: nat, role: Role, start: nat, k: nat)
    requires i < |raw| && Lead(raw, i, role, start) && Listed(raw, start, k)
    requires k < |raw| && raw[k].path.Some?
    ensures Mention(k, raw[k].path.value, role) in Scan(Read(raw), i)
  {
    hide Lead, Listed, Scan, MatchCue, CollectEnd, MentionsIn;
    var tokens := Read(raw);
    LeadIff(raw, i, role, start);
    ScanStep(tokens, i);
    ListedIff(raw, start, k);
    var m := MentionedFile(tokens, start, CollectEnd(tokens, start, false, 0), role, k);
  }

  lemma ListedFile(raw: seq<RawToken>, start: nat, k: nat)
    requires Listed(raw, start, k)
    ensures k < |raw| && raw[k].path.Some?
  {}

  lemma MentionedFile(tokens: seq<Token>, from: nat, until: nat, role: Role, k: nat) returns (m: Mention)
    requires from <= k < until <= |tokens| && tokens[k].path.Some?
    ensures m == Mention(k, tokens[k].path.value, role) && m in MentionsIn(tokens, from, until, role)
  {
    hide MentionsIn;
    MentionsInCover(tokens, from, until, role);
    var list := MentionsIn(tokens, from, until, role);
    var j :| 0 <= j < |list| && list[j].at == k;
    m := list[j];
    assert m in list;
  }

  /** And every role but the uncertain one comes from such a list. */
  lemma {:induction false} RoleWasSaid(raw: seq<RawToken>, i: nat, m: Mention)
    requires i <= |raw| && m in Scan(Read(raw), i) && m.role != Uncertain
    ensures m.at < |raw| && raw[m.at].path == Some(m.path) && Said(raw, m.at, m.role)
    decreases |raw| - i
  {
    hide Lead, Listed, Scan, MatchCue, CollectEnd, MentionsIn;
    var tokens := Read(raw);
    if i == |raw| {
      ScanEnd(tokens);
    } else {
      ScanStep(tokens, i);
      var c := MatchCue(tokens, i);
      if m in Scan(tokens, Next(tokens, i)) {
        RoleWasSaid(raw, Next(tokens, i), m);
      } else {
        CueSaid(raw, i, c, m);
      }
    }
  }

  lemma CueSaid(raw: seq<RawToken>, i: nat, c: Cue, m: Mention)
    requires i < |raw| && c == MatchCue(Read(raw), i) && c.Cue?
    requires m in MentionsIn(Read(raw), i + c.consumed, CollectEnd(Read(raw), i + c.consumed, false, 0), c.role)
    ensures m.at < |raw| && raw[m.at].path == Some(m.path) && Said(raw, m.at, m.role)
  {
    hide Lead, Listed, MatchCue, CollectEnd, MentionsIn;
    var start := i + c.consumed;
    MentionIsFile(Read(raw), start, CollectEnd(Read(raw), start, false, 0), c.role, m);
    LeadIff(raw, i, c.role, start);
    ListedIff(raw, start, m.at);
  }

  lemma MentionIsFile(tokens: seq<Token>, from: nat, until: nat, role: Role, m: Mention)
    requires from <= until <= |tokens| && m in MentionsIn(tokens, from, until, role)
    ensures from <= m.at < until && tokens[m.at].path == Some(m.path) && m.role == role
  {
    hide MentionsIn;
    MentionsInCover(tokens, from, until, role);
    var list := MentionsIn(tokens, from, until, role);
    var j :| 0 <= j < |list| && list[j] == m;
  }

  datatype Constraints = Constraints(
    allowlist: seq<string>,
    preferred: seq<string>,
    forbidden: seq<string>,
    reference: seq<string>,
    uncertain: seq<string>)

  function Bucket(c: Constraints, role: Role): seq<string> {
    match role
    case Forbidden => c.forbidden
    case Reference => c.reference
    case Allowlist => c.allowlist
    case Preferred => c.preferred
    case Uncertain => c.uncertain
  }

  predicate NoDuplicates(s: seq<string>) {
    forall i, j :: 0 <= i < j < |s| ==> s[i] != s[j]
  }

  /** The dictionary of roles by path: `paths` are its keys in order of insertion. */
  ghost predicate RolesOf(mentions: seq<Mention>, paths: seq<string>, roles: map<string, set<Role>>) {
    && NoDuplicates(paths)
    && (forall p :: p in paths <==> p in roles)
    && (forall p :: p in roles ==> roles[p] != {})
    && (forall p, r :: p in roles && r in roles[p] ==> HasRole(mentions, p, r))
    && (forall m :: 0 <= m < |mentions| ==> mentions[m].path in roles && mentions[m].role in roles[mentions[m].path])
  }

  /** roles.setdefault(path, set()).add(role). */
  method AddRole(paths: seq<string>, roles: map<string, set<Role>>, path: string, role: Role, at: nat,
          ghost mentions: seq<Mention>)
    returns (paths': seq<string>, roles': map<string, set<Role>>)
    requires RolesOf(mentions, paths, roles)
    ensures RolesOf(mentions + [Mention(at, path, role)], paths', roles')
  {
    ghost var more := mentions + [Mention(at, path, role)];
    if path in roles {
      paths', roles' := paths, roles[path := roles[path] + {role}];
    } else {
      paths', roles' := paths + [path], roles[path := {role}];
    }
    assert more[|mentions|] == Mention(at, path, role);
    forall p, r | p in roles' && r in roles'[p] ensures HasRole(more, p, r) {
      if p in roles && r in roles[p] {
        var m :| 0 <= m < |mentions| && mentions[m].path == p && mentions[m].role == r;
        assert more[m] == mentions[m];
      }
    }
  }

  /** The list behind a cue. */
  method CollectFiles(tokens: seq<Token>, start: nat, role: Role, paths: seq<string>, roles: map<string,
          set<Role>>, ghost mentions: seq<Mention>)
    returns (j: nat, paths': seq<string>, roles': map<string, set<Role>>)
    requires start <= |tokens| && RolesOf(mentions, paths, roles)
    ensures j == CollectEnd(tokens, start, false, 0)
    ensures RolesOf(mentions + MentionsIn(tokens, start, j, role), paths', roles')
  {
    hide RolesOf, NoDuplicates, HasRole, Glue, IsFiller, Classify, CONNECTORS, FILLERS;
    j, paths', roles' := start, paths, roles;
    var started := false;
    var skipped: nat := 0;
    assert mentions + MentionsIn(tokens, start, start, role) == mentions;
    while j < |tokens|
      invariant start <= j <= |tokens|
      invariant CollectEnd(tokens, j, started, skipped) == CollectEnd(tokens, start, false, 0)
      invariant RolesOf(mentions + MentionsIn(tokens, start, j, role), paths', roles')
    {
      if tokens[j].path.Some? {
        ghost var before := mentions + MentionsIn(tokens, start, j, role);
        paths', roles' := AddRole(paths', roles', tokens[j].path.value, role, j, before);
        assert before + [Mention(j, tokens[j].path.value, role)] == mentions + MentionsIn(tokens, start, j + 1, role);
        started := true;
        j := j + 1;
        continue;
      }
      if !Glue(tokens[j]) {
        break;
      }
      if !started && !IsFiller(tokens[j].word) {
        break;
      }
      if !started {
        skipped := skipped + 1;
        if skipped > 3 {
          break;
        }
      }
      j := j + 1;
    }
  }

  lemma NothingYet()
    ensures RolesOf([], [], map[])
  {}

  lemma ScanStep(tokens: seq<Token>, i: nat)
    requires i < |tokens|
    ensures var c := MatchCue(tokens, i);
            Scan(tokens, i) ==
            if c.Cue? then
              var e := CollectEnd(tokens, i + c.consumed, false, 0);
              MentionsIn(tokens, i + c.consumed, e, c.role) + Scan(tokens, e)
            else
              (if tokens[i].path.Some? then [Mention(i, tokens[i].path.value, Uncertain)] else []) + Scan(tokens, i + 1)
  {}

  lemma ScanEnd(tokens: seq<Token>)
    ensures Scan(tokens, |tokens|) == []
  {}

  ghost predicate NamedAs(raw: seq<RawToken>, p: string, role: Role) {
    exists k: nat :: k < |raw| && raw[k].path == Some(p) && Said(raw, k, role)
  }

  /** From words to buckets: a file on the list behind a clear cue is in the bucket of that cue or of
      a role with more authority, so one behind "do not" is forbidden; and no path is in a bucket,
      but the uncertain one, unless it stands on a list behind such a cue. */
  ghost predicate BucketsSay(raw: seq<RawToken>, c: Constraints) {
    && (forall k: nat :: SaidClearly(raw, k, Forbidden) ==>
          k < |raw| && raw[k].path.Some? && raw[k].path.value in c.forbidden)
    && (forall k: nat :: SaidClearly(raw, k, Reference) ==>
          k < |raw| && raw[k].path.Some? && raw[k].path.value in c.forbidden + c.reference)
    && (forall k: nat :: SaidClearly(raw, k, Allowlist) ==>
          k < |raw| && raw[k].path.Some? && raw[k].path.value in c.forbidden + c.reference + c.allowlist)
    && (forall k: nat :: SaidClearly(raw, k, Preferred) ==>
          k < |raw| && raw[k].path.Some? && raw[k].path.value in c.forbidden + c.reference + c.allowlist + c.preferred)
    && (forall p :: p in c.forbidden ==> NamedAs(raw, p, Forbidden))
    && (forall p :: p in c.reference ==> NamedAs(raw, p, Reference))
    && (forall p :: p in c.allowlist ==> NamedAs(raw, p, Allowlist))
    && (forall p :: p in c.preferred ==> NamedAs(raw, p, Preferred))
  }

  ghost predicate TopRolesIn(raw: seq<RawToken>, c: Constraints) {
    forall role, p :: p in Bucket(c, role) <==> TopRole(Scan(Read(raw), 0), p, role)
  }

  lemma SaidBucket(raw: seq<RawToken>, c: Constraints, k: nat, role: Role)
    requires TopRolesIn(raw, c) && SaidClearly(raw, k, role)
    ensures k < |raw| && raw[k].path.Some?
    ensures exists top :: Rank(top) <= Rank(role) && raw[k].path.value in Bucket(c, top)
  {
    hide Scan, SaidClearly, HasRole;
    SaidHasRole(raw, k, role);
    var top := Best(Scan(Read(raw), 0), raw[k].path.value, role);
    assert raw[k].path.value in Bucket(c, top);
  }

  lemma BucketNamed(raw: seq<RawToken>, c: Constraints, p: string, role: Role)
    requires TopRolesIn(raw, c) && p in Bucket(c, role) && role != Uncertain
    ensures NamedAs(raw, p, role)
  {
    hide Scan, Said;
    var mentions := Scan(Read(raw), 0);
    assert HasRole(mentions, p, role);
    var m :| 0 <= m < |mentions| && mentions[m].path == p && mentions[m].role == role;
    assert mentions[m] in mentions;
    RoleWasSaid(raw, 0, mentions[m]);
  }

  lemma WordsToBuckets(raw: seq<RawToken>, c: Constraints)
    requires TopRolesIn(raw, c)
    ensures BucketsSay(raw, c)
  {
    hide TopRolesIn, SaidClearly, NamedAs;
    forall k: nat, role | SaidClearly(raw, k, role)
      ensures k < |raw| && raw[k].path.Some?
              && exists top :: Rank(top) <= Rank(role) && raw[k].path.value in Bucket(c, top)
    {
      SaidBucket(raw, c, k, role);
    }
    forall p, role | p in Bucket(c, role) && role != Uncertain ensures NamedAs(raw, p, role) {
      BucketNamed(raw, c, p, role);
    }
    assert Bucket(c, Forbidden) == c.forbidden && Bucket(c, Reference) == c.reference;
    assert Bucket(c, Allowlist) == c.allowlist && Bucket(c, Preferred) == c.preferred;
  }

  /** Scan, then give each path its highest role. */
  method ExtractUserFileConstraints(raw: seq<RawToken>) returns (c: Constraints)
    ensures forall role, p :: p in Bucket(c, role) <==> TopRole(Scan(Read(raw), 0), p, role)
    ensures forall role :: NoDuplicates(Bucket(c, role))
    ensures BucketsSay(raw, c)
  {
    hide MatchCue, CollectEnd, MentionsIn, TopRole, Scan, RolesOf, NoDuplicates, Classify, BucketsSay;
    var tokens := Read(raw);
    NothingYet();
    var paths: seq<string>, roles: map<string, set<Role>> := [], map[];
    var i: nat := 0;
    ghost var seen: seq<Mention> := [];
    ghost var all := Scan(tokens, 0);
    while i < |tokens|
      invariant i <= |tokens|
      invariant RolesOf(seen, paths, roles)
      invariant seen + Scan(tokens, i) == all
      decreases |tokens| - i
    {
      var cue := MatchCue(tokens, i);
      ScanStep(tokens, i);
      if cue.Cue? {
        var e;
        e, paths, roles := CollectFiles(tokens, i + cue.consumed, cue.role, paths, roles, seen);
        ghost var list := MentionsIn(tokens, i + cue.consumed, e, cue.role);
        assert seen + (list + Scan(tokens, e)) == seen + list + Scan(tokens, e);
        seen := seen + list;
        i := e;
        continue;
      }
      if tokens[i].path.Some? {
        paths, roles := AddRole(paths, roles, tokens[i].path.value, Uncertain, i, seen);
        ghost var one := [Mention(i, tokens[i].path.value, Uncertain)];
        assert seen + (one + Scan(tokens, i + 1)) == seen + one + Scan(tokens, i + 1);
        seen := seen + one;
      } else {
        assert [] + Scan(tokens, i + 1) == Scan(tokens, i + 1);
      }
      i := i + 1;
    }
    ScanEnd(tokens);
    assert seen + [] == seen;
    c := FillBuckets(paths, roles, all);
    assert TopRolesIn(raw, c);
    WordsToBuckets(raw, c);
  }

  /** The role a set of roles counts as. */
  function Strongest(roles: set<Role>): Role {
    if Forbidden in roles then Forbidden
    else if Reference in roles then Reference
    else if Allowlist in roles then Allowlist
    else if Preferred in roles then Preferred
    else Uncertain
  }

  lemma StrongestIsTop(mentions: seq<Mention>, paths: seq<string>, roles: map<string, set<Role>>, p: string, role: Role)
    requires RolesOf(mentions, paths, roles)
    ensures TopRole(mentions, p, role) <==> p in roles && Strongest(roles[p]) == role
  {
    forall r ensures HasRole(mentions, p, r) <==> p in roles && r in roles[p] {}
    if p in roles {
      assert Strongest(roles[p]) in roles[p] by {
        var r :| r in roles[p];
      }
    }
  }

  /** The buckets hold the paths done so far, each under its strongest role. */
  ghost predicate BucketsOk(buckets: map<Role, seq<string>>, done: seq<string>, roles: map<string, set<Role>>)
    requires forall p :: p in done ==> p in roles
  {
    forall role ::
      && role in buckets && NoDuplicates(buckets[role])
      && forall p :: p in buckets[role] <==> p in done && Strongest(roles[p]) == role
  }

  lemma BucketStep(buckets: map<Role, seq<string>>, done: seq<string>, roles: map<string, set<Role>>, p: string)
    requires p !in done && p in roles && forall q :: q in done ==> q in roles
    requires BucketsOk(buckets, done, roles)
    ensures var role := Strongest(roles[p]);
            forall q :: q in done + [p] ==> q in roles
    ensures var role := Strongest(roles[p]);
            role in buckets && BucketsOk(buckets[role := buckets[role] + [p]], done + [p], roles)
  {
    hide Strongest;
    var role := Strongest(roles[p]);
    assert role in buckets;
    var r := buckets[role := buckets[role] + [p]];
    forall x
      ensures x in r && NoDuplicates(r[x])
              && forall q :: q in r[x] <==> q in done + [p] && Strongest(roles[q]) == x
    {
      assert x in buckets && NoDuplicates(buckets[x]);
      assert p !in buckets[x];
    }
  }

  method FillBuckets(paths: seq<string>, roles: map<string, set<Role>>, ghost mentions: seq<Mention>)
    returns (c: Constraints)
    requires RolesOf(mentions, paths, roles)
    ensures forall role, p :: p in Bucket(c, role) <==> TopRole(mentions, p, role)
    ensures forall role :: NoDuplicates(Bucket(c, role))
  {
    hide Strongest, TopRole;
    var buckets: map<Role, seq<string>> :=
      map[Forbidden := [], Reference := [], Allowlist := [], Preferred := [], Uncertain := []];
    forall role ensures role in buckets && buckets[role] == [] {
      match role
      case Forbidden =>
      case Reference =>
      case Allowlist =>
      case Preferred =>
      case Uncertain =>
    }
    for i := 0 to |paths|
      invariant forall p :: p in paths[..i] ==> p in roles
      invariant BucketsOk(buckets, paths[..i], roles)
    {
      var p := paths[i];
      assert p !in paths[..i] && paths[..i + 1] == paths[..i] + [p];
      BucketStep(buckets, paths[..i], roles, p);
      var role := Strongest(roles[p]);
      buckets := buckets[role := buckets[role] + [p]];
    }
    assert paths[..|paths|] == paths;
    c := Constraints(buckets[Allowlist], buckets[Preferred], buckets[Forbidden], buckets[Reference],
        buckets[Uncertain]);
    forall role, p ensures p in Bucket(c, role) <==> TopRole(mentions, p, role) {
      StrongestIsTop(mentions, paths, roles, p, role);
    }
  }

  // ----- what a request gets ---------------------------------------------------------------------

  /** Every file the request names, outside the cue words themselves, ends in exactly one
      bucket, under the highest role any of its mentions has. */
  lemma EveryFileIsClassified(tokens: seq<Token>, k: nat)
    requires k < |tokens| && tokens[k].path.Some? && !CueWord(tokens[k].word)
    ensures exists role :: TopRole(Scan(tokens, 0), tokens[k].path.value, role)
    ensures var mentions, p := Scan(tokens, 0), tokens[k].path.value;
            forall a, b :: TopRole(mentions, p, a) && TopRole(mentions, p, b) ==> a == b
  {
    hide Scan;
    ScanCovers(tokens, 0);
    var mentions, p := Scan(tokens, 0), tokens[k].path.value;
    var m :| 0 <= m < |mentions| && mentions[m].at == k;
    assert HasRole(mentions, p, mentions[m].role);
    var top := Best(mentions, p, mentions[m].role);
    assert TopRole(mentions, p, top);
    OneTopRole(mentions, p);
  }

  lemma OneTopRole(mentions: seq<Mention>, p: string)
    ensures forall a, b :: TopRole(mentions, p, a) && TopRole(mentions, p, b) ==> a == b
  {
    forall a, b | TopRole(mentions, p, a) && TopRole(mentions, p, b) ensures a == b {
      assert !Higher(a, b) && !Higher(b, a);
    }
  }

  lemma {:induction false} Best(mentions: seq<Mention>, p: string, role: Role) returns (top: Role)
    requires HasRole(mentions, p, role)
    ensures TopRole(mentions, p, top)
    decreases Rank(role)
  {
    if exists r :: Higher(r, role) && HasRole(mentions, p, r) {
      var r :| Higher(r, role) && HasRole(mentions, p, r);
      top := Best(mentions, p, r);
    } else {
      top := role;
    }
  }

  /** Forbidden wins: one forbidding mention outweighs every other. */
  lemma ForbiddenWins(tokens: seq<Token>, p: string)
    requires HasRole(Scan(tokens, 0), p, Forbidden)
    ensures forall role :: TopRole(Scan(tokens, 0), p, role) <==> role == Forbidden
  {
    hide Scan;
    forall role ensures TopRole(Scan(tokens, 0), p, role) <==> role == Forbidden {
      assert role != Forbidden ==> Higher(Forbidden, role);
    }
  }

  /** A cue at the start of a request governs the whole list behind it: files joined by
      connectors and fillers, the first of them directly after the cue. */
  lemma CueGovernsItsList(tokens: seq<Token>, until: nat, k: nat)
    requires tokens != [] && MatchCue(tokens, 0).Cue?
    requires var start := MatchCue(tokens, 0).consumed;
             && start < until <= |tokens| && tokens[start].path.Some? && start <= k < until
             && forall j :: start <= j < until ==> tokens[j].path.Some? || Glue(tokens[j])
    requires tokens[k].path.Some?
    ensures HasRole(Scan(tokens, 0), tokens[k].path.value, MatchCue(tokens, 0).role)
  {
    hide MatchCue;
    var c := MatchCue(tokens, 0);
    var e := CollectEnd(tokens, c.consumed, false, 0);
    ListReaches(tokens, c.consumed, false, 0, until);
    MentionsInCover(tokens, c.consumed, e, c.role);
    var list := MentionsIn(tokens, c.consumed, e, c.role);
    var m :| 0 <= m < |list| && list[m].at == k;
    assert list[m] in list;
    assert Scan(tokens, 0)[m] == list[m];
  }

  lemma {:induction false} ListReaches(tokens: seq<Token>, j: nat, started: bool, skipped: nat, until: nat)
    requires j <= until <= |tokens| && (started || (j < until && tokens[j].path.Some?))
    requires forall k :: j <= k < until ==> tokens[k].path.Some? || Glue(tokens[k])
    ensures CollectEnd(tokens, j, started, skipped) >= until
    decreases until - j
  {
    if j < until {
      ListReaches(tokens, j + 1, true, skipped, until);
    }
  }

  // ----- a cue that gets lost -------------------------------------------------------------------

  /** "update A and only modify B": "only" is taken for a filler of the first list, so B is merely
      preferred, although "only modify" stands directly in front of it. */
  lemma OnlyInsideAListIsLost(a: string, b: string, raw: seq<RawToken>, wordA: string, wordB: string)
    requires PlainWord(wordA) && PlainWord(wordB)
    requires raw == [RawToken(None, "update"), RawToken(Some(a), wordA), RawToken(None, "and"), RawToken(None, "only"),
                     RawToken(None, "modify"), RawToken(Some(b), wordB)]
    ensures Lead(raw, 3, Allowlist, 5) && Listed(raw, 5, 5)
    ensures TopRole(Scan(Read(raw), 0), b, Preferred)
  {
    hide Classify, PlainWord, Scan, MatchCue, CollectEnd, MentionsIn;
    PlainWords(wordA);
    PlainWords(wordB);
    PlainIsNoFiller(wordA);
    PlainIsNoFiller(wordB);
    Spelling("update");
    Spelling("modify");
    Spelling("only");
    ConnectorWords("and");
    var tokens := Read(raw);
    assert tokens == [Token(None, ModifyVerb), Token(Some(a), Plain), Token(None, Connector), Token(None, Only),
                      Token(None, ModifyVerb), Token(Some(b), Plain)];
    LostScan(tokens, a, b);
    assert RunOn(raw, 5, 5) && FillersTo(raw, 5, 5);
  }

  lemma PlainIsNoFiller(word: string)
    requires PlainWord(word)
    ensures word != "only" && word !in MODIFY_VERBS
  {}

  lemma LostScan(tokens: seq<Token>, a: string, b: string)
    requires tokens == [Token(None, ModifyVerb), Token(Some(a), Plain), Token(None, Connector), Token(None, Only),
                        Token(None, ModifyVerb), Token(Some(b), Plain)]
    ensures Scan(tokens, 0) == [Mention(1, a, Preferred), Mention(5, b, Preferred)]
    ensures TopRole(Scan(tokens, 0), b, Preferred)
  {
    hide Scan, MatchCue, CollectEnd, MentionsIn;
    LostCues(tokens, a, b);
    LostList(tokens, a, b);
    ScanStep(tokens, 0);
    ScanStep(tokens, 4);
    ScanEnd(tokens);
    var mentions := Scan(tokens, 0);
    assert mentions == [Mention(1, a, Preferred)] + ([Mention(5, b, Preferred)] + []);
    assert mentions[1].path == b && mentions[1].role == Preferred;
  }

  lemma LostCues(tokens: seq<Token>, a: string, b: string)
    requires tokens == [Token(None, ModifyVerb), Token(Some(a), Plain), Token(None, Connector), Token(None, Only),
                        Token(None, ModifyVerb), Token(Some(b), Plain)]
    ensures MatchCue(tokens, 0) == Cue(Preferred, 1) && MatchCue(tokens, 4) == Cue(Preferred, 1)
  {}

  lemma LostList(tokens: seq<Token>, a: string, b: string)
    requires tokens == [Token(None, ModifyVerb), Token(Some(a), Plain), Token(None, Connector), Token(None, Only),
                        Token(None, ModifyVerb), Token(Some(b), Plain)]
    ensures CollectEnd(tokens, 1, false, 0) == 4 && CollectEnd(tokens, 5, false, 0) == 6
    ensures MentionsIn(tokens, 1, 4, Preferred) == [Mention(1, a, Preferred)]
    ensures MentionsIn(tokens, 5, 6, Preferred) == [Mention(5, b, Preferred)]
  {
    assert CollectEnd(tokens, 2, true, 0) == CollectEnd(tokens, 3, true, 0) == CollectEnd(tokens, 4, true, 0) == 4;
    assert MentionsIn(tokens, 1, 2, Preferred) == [Mention(1, a, Preferred)];
    assert MentionsIn(tokens, 1, 3, Preferred) == [Mention(1, a, Preferred)];
  }
}
