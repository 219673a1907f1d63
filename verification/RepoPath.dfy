/** Path normalization for grounding (backend/pipeline/plan_path_grounding.py, lines 66-83). */
module RepoPath {
  import opened Wrappers

  predicate Space(c: char) {
    var n := c as int;
    9 <= n <= 13 || 28 <= n <= 32 || n == 133 || n == 160
  }

  predicate Slash(c: char) {
    c == '/'
  }

  function TrimLeft(s: string, cut: char -> bool): (r: string)
    ensures |r| <= |s| && (r != [] ==> !cut(r[0]))
    ensures |r| == |s| ==> r == s
    ensures forall c :: c in r ==> c in s
  {
    if s != [] && cut(s[0]) then TrimLeft(s[1..], cut) else s
  }

  function TrimRight(s: string, cut: char -> bool): (r: string)
    ensures |r| <= |s| && (r != [] ==> !cut(r[|r| - 1]))
    ensures r <= s
  {
    if s != [] && cut(s[|s| - 1]) then TrimRight(s[..|s| - 1], cut) else s
  }

  function Trim(s: string, cut: char -> bool): (r: string)
    ensures |r| <= |s|
    ensures |r| == |s| ==> r == s
    ensures r != [] ==> !cut(r[0]) && !cut(r[|r| - 1])
    ensures forall c :: c in r ==> c in s
  {
    TrimRight(TrimLeft(s, cut), cut)
  }

  function ForwardSlashes(s: string): (r: string)
    ensures |r| == |s| && '\\' !in r
    ensures '\\' !in s ==> r == s
  {
    if s == [] then [] else [if s[0] == '\\' then '/' else s[0]] + ForwardSlashes(s[1..])
  }

  function DropDotSlash(s: string): (r: string)
    ensures |r| <= |s| && !("./" <= r)
    ensures "./" <= s ==> |r| < |s|
    ensures !("./" <= s) ==> r == s
    ensures forall c :: c in r ==> c in s
  {
    if "./" <= s then DropDotSlash(s[2..]) else s
  }

  /** Some component of the path is "..". */
  predicate ClimbsUp(s: string) {
    exists i :: 0 <= i < |s| - 1 && s[i] == '.' && s[i + 1] == '.'
      && (i == 0 || s[i - 1] == '/') && (i + 2 == |s| || s[i + 2] == '/')
  }

  function Relative(s: string): (r: string)
    ensures |r| <= |s| && (r != [] ==> r[0] != '/')
    ensures s != [] && s[0] != '/' ==> r == s
    ensures forall c :: c in r ==> c in s
  {
    if s != [] && s[0] == '/' then Trim(s, Slash) else s
  }

  function Bare(path: string): (r: string)
    ensures '\\' !in r && (r != [] ==> r[0] != '/')
  {
    Relative(DropDotSlash(Trim(ForwardSlashes(path), Space)))
  }

  /** Forward slashes, no surrounding space, no leading "./"; None for absolute paths, for
      paths that climb up and for nothing at all. */
  function Normalize(path: string): (r: Option<string>)
    ensures r.Some? ==> r.value != [] && r.value[0] != '/' && '\\' !in r.value
  {
    if path == [] || Bare(path) == [] || path[0] == '/' || ClimbsUp(Bare(path)) then None else Some(Bare(path))
  }

  /** `normalized or raw`. */
  function NormalForm(path: string): string {
    if Normalize(path).Some? then Normalize(path).value else path
  }

  /** Nothing left for a second pass to cut. */
  predicate Settled(path: string) {
    path != [] && !Space(path[0]) && !Space(path[|path| - 1]) && !("./" <= path)
  }

  lemma TrimFixed(s: string, cut: char -> bool)
    requires s != [] && !cut(s[0]) && !cut(s[|s| - 1])
    ensures Trim(s, cut) == s
  {}

  lemma BareAgain(r: string)
    requires r != [] && r[0] != '/' && '\\' !in r
    ensures Settled(r) ==> Bare(r) == r
    ensures !Settled(r) ==> |Bare(r)| < |r|
  {
    hide ForwardSlashes, Trim, DropDotSlash, Relative;
    var once := Trim(r, Space);
    if Settled(r) {
      TrimFixed(r, Space);
    } else if |once| == |r| {
      assert once == r && "./" <= r;
    }
  }

  /** Normalizing twice is normalizing once exactly when the first result is settled. */
  lemma NormalizeTwiceIff(path: string)
    requires Normalize(path).Some?
    ensures var r := Normalize(path).value; Normalize(r) == Some(r) <==> Settled(r)
  {
    hide Bare, ClimbsUp;
    BareAgain(Normalize(path).value);
  }

  lemma SlashesOf(s: string, c: char)
    ensures ForwardSlashes([c] + s) == [if c == '\\' then '/' else c] + ForwardSlashes(s)
  {
    assert ([c] + s)[1..] == s;
  }

  lemma TrimFirst(c: char, s: string, cut: char -> bool)
    requires cut(c) && s != [] && !cut(s[0]) && !cut(s[|s| - 1])
    ensures Trim([c] + s, cut) == s
  {
    assert ([c] + s)[1..] == s;
    TrimFixed(s, cut);
  }

  /** Which the code does not guarantee: a "./" hidden behind a leading backslash is still
      there afterwards, and only a second pass removes it. */
  lemma HiddenDotSlash(s: string)
    requires s != [] && '\\' !in s && !Space(s[|s| - 1]) && s[|s| - 1] != '/' && !ClimbsUp("./" + s)
    ensures Normalize("\\./" + s) == Some("./" + s)
    ensures !Settled("./" + s)
  {
    hide ForwardSlashes, Trim, DropDotSlash, ClimbsUp;
    var tail := "./" + s;
    var raw, slashed := "\\./" + s, ['/'] + tail;
    assert raw == ['\\'] + tail;
    SlashesOf(tail, '\\');
    TrimFixed(slashed, Space);
    TrimFirst('/', tail, Slash);
    assert !("./" <= slashed);
    assert Bare(raw) == tail;
  }

  lemma DotSlashDropped(s: string)
    requires s != [] && '\\' !in s && !Space(s[|s| - 1]) && s[0] != '/' && !("./" <= s) && !ClimbsUp(s)
    ensures Normalize("./" + s) == Some(s)
  {
    hide ForwardSlashes, Trim, Relative, ClimbsUp;
    var path := "./" + s;
    TrimFixed(path, Space);
    assert path[2..] == s && "./" <= path;
    assert DropDotSlash(path) == s;
  }

  /** For instance: one pass gives "./a", a second one "a". */
  lemma NormalizeIsNotIdempotent()
    ensures Normalize("\\./a") == Some("./a") && Normalize("./a") == Some("a")
  {
    assert "./" + "a" == "./a" && "\\./" + "a" == "\\./a";
    assert !ClimbsUp("./a") && !ClimbsUp("a");
    HiddenDotSlash("a");
    DotSlashDropped("a");
  }

  lemma NormalFormMoves()
    ensures NormalForm("\\./a") == "./a" && NormalForm("./a") == "a"
  {
    hide Bare, ClimbsUp;
    NormalizeIsNotIdempotent();
  }

  // ----- what is refused and what is kept -----------------------------------------------------------

  /** A normalized path never climbs up, is relative and has forward slashes only; a path that is
      settled, relative and free of backslashes is its own normal form unless it climbs up. */
  lemma NormalizeIsSafe(path: string)
    ensures Normalize(path).Some? ==>
              var r := Normalize(path).value;
              r != [] && r[0] != '/' && '\\' !in r && !ClimbsUp(r) && path[0] != '/'
    ensures Settled(path) && '\\' !in path && path[0] != '/' ==>
              Normalize(path) == if ClimbsUp(path) then None else Some(path)
  {
    hide Bare, ClimbsUp;
    if Settled(path) && '\\' !in path && path[0] != '/' {
      BareAgain(path);
    }
  }
}
