/** Identity paths: grammar, home workspace, and anchored glob patterns. */
module Paths {

  const MAX_SEGMENTS: nat := 8
  const MAX_PATH_LEN: nat := 256
  const MAX_SEGMENT_LEN: nat := 64

  const RESERVED_LEVEL1: set<string> := {"idle", "unmanaged"}

  datatype PathError = EmptyPath | PathTooLong | PathTooDeep | InvalidSegment | ReservedName

  datatype Check = Valid | Invalid(error: PathError)

  predicate SegmentChar(c: char) {
    'a' <= c <= 'z' || '0' <= c <= '9' || c == '_'
  }

  predicate ValidSegment(s: string) {
    0 < |s| <= MAX_SEGMENT_LEN && forall i :: 0 <= i < |s| ==> SegmentChar(s[i])
  }

  /** `split('/')`: always at least one piece. */
  function Split(s: string): (segs: seq<string>)
    ensures |segs| >= 1
  {
    if s == "" then [""]
    else
      var rest := Split(s[1..]);
      if s[0] == '/' then [""] + rest else [[s[0]] + rest[0]] + rest[1..]
  }

  /** `join("/")`. */
  function Join(segs: seq<string>): string {
    if segs == [] then "" else if |segs| == 1 then segs[0] else segs[0] + "/" + Join(segs[1..])
  }

  function ValidatePath(path: string): Check {
    if path == "" then Invalid(EmptyPath)
    else if |path| > MAX_PATH_LEN then Invalid(PathTooLong)
    else if |Split(path)| > MAX_SEGMENTS then Invalid(PathTooDeep)
    else if exists i :: 0 <= i < |Split(path)| && !ValidSegment(Split(path)[i]) then Invalid(InvalidSegment)
    else Valid
  }

  function CheckReservedLevel1(path: string): Check {
    if Split(path)[0] in RESERVED_LEVEL1 then Invalid(ReservedName) else Valid
  }

  /** A path that `resolve_create` accepts. */
  predicate Creatable(path: string) {
    ValidatePath(path).Valid? && CheckReservedLevel1(path).Valid?
  }

  /** The first segment of a path of two or more, else `default`. */
  function HomeWorkspace(path: string): string {
    var segs := Split(path);
    if |segs| >= 2 then segs[0] else "default"
  }

  /** The reservation that move recovery relies on: no created agent lives in workspace `idle`. */
  lemma HomeIsNeverIdle(path: string)
    ensures Creatable(path) ==> HomeWorkspace(path) != "idle"
    ensures HomeWorkspace(path) == "idle" <==> |Split(path)| >= 2 && Split(path)[0] == "idle"
  {
    assert "default"[0] != "idle"[0];
  }

  lemma {:induction false} JoinSplit(s: string)
    ensures Join(Split(s)) == s
  {
    if s != "" {
      JoinSplit(s[1..]);
      var rest := Split(s[1..]);
      if s[0] == '/' {
        assert ([""] + rest)[1..] == rest;
      } else if |rest| > 1 {
        var segs := [[s[0]] + rest[0]] + rest[1..];
        assert segs[1..] == rest[1..];
        assert Join(segs) == [s[0]] + rest[0] + "/" + Join(rest[1..]);
      }
    }
  }

  // ---- paths as text ----

  /** A text without a slash is its own only piece. */
  lemma {:induction false} SplitSingle(s: string)
    requires '/' !in s
    ensures Split(s) == [s]
  {
    if s != "" {
      SplitSingle(s[1..]);
      assert [s[0]] + s[1..] == s;
    }
  }

  /** One more character in front makes one more piece, or lengthens the first. */
  function Prepend(c: char, pieces: seq<string>): seq<string>
    requires pieces != []
  {
    if c == '/' then [""] + pieces else [[c] + pieces[0]] + pieces[1..]
  }

  lemma PrependConcat(c: char, a: seq<string>, b: seq<string>)
    requires a != []
    ensures Prepend(c, a + b) == Prepend(c, a) + b
  {
    assert (a + b)[1..] == a[1..] + b;
  }

  lemma SplitStep(s: string)
    requires s != ""
    ensures Split(s) == Prepend(s[0], Split(s[1..]))
  {
  }

  /** Cutting at a slash cuts the pieces in two. */
  lemma {:induction false} SplitAtSlash(a: string, b: string)
    ensures Split(a + "/" + b) == Split(a) + Split(b)
  {
    var s := a + "/" + b;
    if a == "" {
      assert s[1..] == b;
      assert Split(s) == [""] + Split(b);
    } else {
      assert s[0] == a[0] && s[1..] == a[1..] + "/" + b;
      SplitAtSlash(a[1..], b);
      SplitStep(s);
      SplitStep(a);
      PrependConcat(a[0], Split(a[1..]), Split(b));
    }
  }

  lemma {:induction false} PiecesHaveNoSlash(s: string, i: nat)
    requires i < |Split(s)|
    ensures '/' !in Split(s)[i]
  {
    if s != "" {
      var shift := if s[0] == '/' then 1 else 0;
      if i >= shift {
        PiecesHaveNoSlash(s[1..], i - shift);
      }
    }
  }

  lemma {:induction false} JoinConcat(a: seq<string>, b: seq<string>)
    requires a != [] && b != []
    ensures Join(a + b) == Join(a) + "/" + Join(b)
  {
    if |a| == 1 {
      assert (a + b)[1..] == b;
    } else {
      assert (a + b)[1..] == a[1..] + b;
      JoinConcat(a[1..], b);
    }
  }

  /** `ws` is the text before the first slash of `path`, or `default` when there is none. */
  predicate IsHome(path: string, ws: string) {
    if '/' in path then |ws| < |path| && path[..|ws|] == ws && path[|ws|] == '/' && '/' !in ws else ws == "default"
  }

  /** The home workspace of a nested path is its first segment, that of any other path is `default`. */
  lemma HomeIsFirstSegment(first: string, rest: string)
    requires '/' !in first
    ensures HomeWorkspace(first + "/" + rest) == first
    ensures HomeWorkspace(first) == "default"
  {
    SplitAtSlash(first, rest);
    SplitSingle(first);
  }

  lemma {:induction false} FirstSlash(path: string) returns (k: nat)
    requires '/' in path
    ensures k < |path| && path[k] == '/' && '/' !in path[..k]
  {
    if path[0] == '/' {
      k := 0;
    } else {
      k := FirstSlash(path[1..]);
      k := k + 1;
      assert path[..k] == [path[0]] + path[1..][..k - 1];
    }
  }

  lemma HomeIsHome(path: string, ws: string)
    ensures IsHome(path, ws) <==> HomeWorkspace(path) == ws
  {
    if '/' in path {
      var k := FirstSlash(path);
      assert path == path[..k] + "/" + path[k + 1..];
      HomeIsFirstSegment(path[..k], path[k + 1..]);
      if IsHome(path, ws) {
        assert path == ws + "/" + path[|ws| + 1..];
        HomeIsFirstSegment(ws, path[|ws| + 1..]);
      }
    } else {
      HomeIsFirstSegment(path, "");
    }
  }

  /** A path is accepted exactly when it consists of one to eight proper segments and is not too long. */
  lemma AcceptedPaths(segs: seq<string>)
    requires segs != [] && forall i :: 0 <= i < |segs| ==> '/' !in segs[i]
    ensures Split(Join(segs)) == segs
    ensures ValidatePath(Join(segs)).Valid?
            <==> |segs| <= 8 && |Join(segs)| <= 256 && forall i :: 0 <= i < |segs| ==> ProperSegment(segs[i])
    ensures Creatable(Join(segs)) <==> ValidatePath(Join(segs)).Valid? && segs[0] != "idle" && segs[0] != "unmanaged"
  {
    SplitJoined(segs);
    forall i | 0 <= i < |segs|
      ensures ValidSegment(segs[i]) <==> ProperSegment(segs[i])
    {
      ProperIsValid(segs[i]);
    }
    if Join(segs) == "" {
      assert Split("") == [""] && segs[0] == "";
    }
  }

  lemma ProperIsValid(s: string)
    ensures ValidSegment(s) <==> ProperSegment(s)
  {
    forall i | 0 <= i < |s|
      ensures s[i] in s
    {
    }
  }

  /** One to 64 lower-case letters, digits and underscores. */
  predicate ProperSegment(s: string) {
    1 <= |s| <= 64 && forall c :: c in s ==> 'a' <= c <= 'z' || '0' <= c <= '9' || c == '_'
  }

  lemma {:induction false} SplitJoined(segs: seq<string>)
    requires segs != [] && forall i :: 0 <= i < |segs| ==> '/' !in segs[i]
    ensures Split(Join(segs)) == segs
  {
    SplitSingle(segs[0]);
    if |segs| > 1 {
      SplitJoined(segs[1..]);
      SplitAtSlash(segs[0], Join(segs[1..]));
    }
  }

  // ---- patterns ----

  datatype Seg = Literal(text: string) | Star | DoubleStar

  function CompileSeg(s: string): Seg {
    if s == "*" then Star else if s == "**" then DoubleStar else Literal(s)
  }

  datatype Compiled = Pattern(segs: seq<Seg>) | BadPattern

  /** `Pattern::compile`: wildcards stand for whole segments only. */
  function Compile(pattern: string): Compiled {
    var parts := Split(pattern);
    if pattern == "" || exists i :: 0 <= i < |parts| && parts[i] !in {"*", "**"} && !ValidSegment(parts[i])
       then BadPattern
    else Pattern(seq(|parts|, i requires 0 <= i < |parts| => CompileSeg(parts[i])))
  }

  /** A pattern is accepted exactly when each of its pieces is a wildcard or a proper segment. */
  lemma AcceptedPatterns(pattern: string)
    ensures Compile(pattern).Pattern?
            <==> pattern != "" && forall p :: p in Split(pattern) ==> p == "*" || p == "**" || ProperSegment(p)
  {
    var parts := Split(pattern);
    forall i | 0 <= i < |parts|
      ensures ValidSegment(parts[i]) <==> ProperSegment(parts[i])
    {
      ProperIsValid(parts[i]);
    }
  }

  /** `match_from`: does the pattern from `pi` consume exactly the segments from `si`? */
  predicate MatchFrom(pat: seq<Seg>, pi: nat, path: seq<string>, si: nat)
    requires pi <= |pat|
    decreases |pat| - pi
  {
    if pi == |pat| then si == |path|
    else
      var next := pi + 1;
      match pat[pi]
      case DoubleStar => exists end: nat | si < end <= |path| :: MatchFrom(pat, next, path, end)
      case Star => si < |path| && MatchFrom(pat, pi + 1, path, si + 1)
      case Literal(text) => si < |path| && path[si] == text && MatchFrom(pat, pi + 1, path, si + 1)
  }

  predicate Matches(pat: seq<Seg>, path: seq<string>) {
    MatchFrom(pat, 0, path, 0)
  }

  // ---- what matching means ----

  /** May this pattern segment stand for this block of path segments? */
  predicate Covers(p: Seg, block: seq<string>) {
    match p
    case DoubleStar => |block| >= 1
    case Star => |block| == 1
    case Literal(text) => block == [text]
  }

  function Flatten(blocks: seq<seq<string>>): seq<string> {
    if blocks == [] then [] else blocks[0] + Flatten(blocks[1..])
  }

  /** The path cut into one block per pattern segment, each block covered by its segment. */
  ghost predicate Cut(pat: seq<Seg>, path: seq<string>, blocks: seq<seq<string>>) {
    && |blocks| == |pat| && Flatten(blocks) == path
    && forall i :: 0 <= i < |pat| ==> Covers(pat[i], blocks[i])
  }

  lemma {:induction false} MatchGivesCut(pat: seq<Seg>, pi: nat, path: seq<string>, si: nat)
      returns (blocks: seq<seq<string>>)
    requires pi <= |pat| && si <= |path| && MatchFrom(pat, pi, path, si)
    ensures Cut(pat[pi..], path[si..], blocks)
    decreases |pat| - pi
  {
    if pi == |pat| {
      blocks := [];
    } else {
      var end: nat := si + 1;
      if pat[pi] == DoubleStar {
        end :| si < end <= |path| && MatchFrom(pat, pi + 1, path, end);
      }
      var rest := MatchGivesCut(pat, pi + 1, path, end);
      blocks := [path[si..end]] + rest;
      assert path[si..] == path[si..end] + path[end..];
      forall i | 0 <= i < |pat[pi..]|
        ensures Covers(pat[pi..][i], blocks[i])
      {
        if i > 0 {
          assert pat[pi..][i] == pat[pi + 1..][i - 1];
        }
      }
    }
  }

  lemma {:induction false} CutGivesMatch(pat: seq<Seg>, pi: nat, path: seq<string>, si: nat, blocks: seq<seq<string>>)
    requires pi <= |pat| && si <= |path| && Cut(pat[pi..], path[si..], blocks)
    ensures MatchFrom(pat, pi, path, si)
    decreases |pat| - pi
  {
    if pi < |pat| {
      var b := blocks[0];
      assert Covers(pat[pi..][0], b);
      assert path[si..] == b + Flatten(blocks[1..]);
      assert path[si..][..|b|] == b;
      assert path[si + |b|..] == Flatten(blocks[1..]);
      forall i | 0 <= i < |pat[pi + 1..]|
        ensures Covers(pat[pi + 1..][i], blocks[1..][i])
      {
        assert pat[pi + 1..][i] == pat[pi..][i + 1];
      }
      CutGivesMatch(pat, pi + 1, path, si + |b|, blocks[1..]);
    }
  }

  /** The matcher accepts exactly the paths that can be cut along the pattern. */
  lemma MatchesIffCut(pat: seq<Seg>, path: seq<string>)
    ensures Matches(pat, path) <==> exists blocks :: Cut(pat, path, blocks)
  {
    assert pat[0..] == pat && path[0..] == path;
    if Matches(pat, path) {
      var blocks := MatchGivesCut(pat, 0, path, 0);
    }
    forall blocks | Cut(pat, path, blocks)
      ensures Matches(pat, path)
    {
      CutGivesMatch(pat, 0, path, 0, blocks);
    }
  }

  lemma {:induction false} FlattenConcat(a: seq<seq<string>>, b: seq<seq<string>>)
    ensures Flatten(a + b) == Flatten(a) + Flatten(b)
  {
    if a == [] {
      assert a + b == b;
    } else {
      assert (a + b)[1..] == a[1..] + b;
      FlattenConcat(a[1..], b);
    }
  }

  lemma {:induction false} FlattenLength(pat: seq<Seg>, path: seq<string>, blocks: seq<seq<string>>)
    requires Cut(pat, path, blocks)
    ensures |path| >= |pat|
    ensures (forall i :: 0 <= i < |pat| ==> pat[i] != DoubleStar) ==> |path| == |pat|
  {
    if pat != [] {
      assert Covers(pat[0], blocks[0]);
      assert Cut(pat[1..], Flatten(blocks[1..]), blocks[1..]);
      FlattenLength(pat[1..], Flatten(blocks[1..]), blocks[1..]);
    }
  }

  /**
   * A match needs at least one path segment per pattern segment, so a trailing double star never matches its own scope.
   */
  lemma MatchNeedsLength(pat: seq<Seg>, path: seq<string>)
    requires Matches(pat, path)
    ensures |path| >= |pat|
  {
    MatchesIffCut(pat, path);
    var blocks :| Cut(pat, path, blocks);
    FlattenLength(pat, path, blocks);
  }

  /** Matching a concatenated pattern is matching its halves on some split of the path. */
  lemma MatchesConcat(p: seq<Seg>, q: seq<Seg>, path: seq<string>)
    ensures Matches(p + q, path) <==> exists k: nat :: k <= |path| && Matches(p, path[..k]) && Matches(q, path[k..])
  {
    if Matches(p + q, path) {
      MatchesIffCut(p + q, path);
      var blocks :| Cut(p + q, path, blocks);
      var l, r := blocks[..|p|], blocks[|p|..];
      assert blocks == l + r;
      FlattenConcat(l, r);
      var k := |Flatten(l)|;
      assert path[..k] == Flatten(l) && path[k..] == Flatten(r);
      forall i | 0 <= i < |p|
        ensures Covers(p[i], l[i])
      {
        assert Covers((p + q)[i], blocks[i]);
      }
      forall i | 0 <= i < |q|
        ensures Covers(q[i], r[i])
      {
        assert Covers((p + q)[|p| + i], blocks[|p| + i]);
      }
      assert Cut(p, path[..k], l) && Cut(q, path[k..], r);
      MatchesIffCut(p, path[..k]);
      MatchesIffCut(q, path[k..]);
    }
    forall k: nat | k <= |path| && Matches(p, path[..k]) && Matches(q, path[k..])
      ensures Matches(p + q, path)
    {
      MatchesIffCut(p, path[..k]);
      MatchesIffCut(q, path[k..]);
      var l :| Cut(p, path[..k], l);
      var r :| Cut(q, path[k..], r);
      FlattenConcat(l, r);
      assert path == path[..k] + path[k..];
      assert Cut(p + q, path, l + r);
      MatchesIffCut(p + q, path);
    }
  }

  /** A pattern without wildcards matches exactly its own segments. */
  lemma LiteralMatchesItself(segs: seq<string>, path: seq<string>)
    ensures Matches(seq(|segs|, i requires 0 <= i < |segs| => Literal(segs[i])), path) <==> path == segs
  {
    LiteralFrom(segs, 0, path);
  }

  lemma {:induction false} LiteralFrom(segs: seq<string>, k: nat, path: seq<string>)
    requires k <= |segs|
    ensures k <= |path| ==>
              (MatchFrom(seq(|segs|, i requires 0 <= i < |segs| => Literal(segs[i])), k, path, k)
               <==> path[k..] == segs[k..])
    decreases |segs| - k
  {
    if k < |segs| {
      LiteralFrom(segs, k + 1, path);
      if k < |path| {
        assert path[k..] == [path[k]] + path[k + 1..] && segs[k..] == [segs[k]] + segs[k + 1..];
      }
    }
  }

  /** A valid path, used as a pattern, selects that path and no other. */
  lemma PathSelectsItself(path: string, other: string)
    requires ValidatePath(path).Valid?
    ensures Compile(path).Pattern? && (Matches(Compile(path).segs, Split(other)) <==> other == path)
  {
    var parts := Split(path);
    forall i | 0 <= i < |parts|
      ensures CompileSeg(parts[i]) == Literal(parts[i])
    {
      assert ValidSegment(parts[i]);
      assert SegmentChar(parts[i][0]);
    }
    assert Compile(path).segs == seq(|parts|, i requires 0 <= i < |parts| => Literal(parts[i]));
    LiteralMatchesItself(parts, Split(other));
    JoinSplit(path);
    JoinSplit(other);
  }

  // ---- wildcards as text ----

  lemma MatchConcatLiterals(segs: seq<string>, tail: seq<Seg>, path: seq<string>)
    ensures Matches(seq(|segs|, i requires 0 <= i < |segs| => Literal(segs[i])) + tail, path)
            <==> segs <= path && Matches(tail, path[|segs|..])
  {
    var lits := seq(|segs|, i requires 0 <= i < |segs| => Literal(segs[i]));
    MatchesConcat(lits, tail, path);
    if segs <= path && Matches(tail, path[|segs|..]) {
      LiteralMatchesItself(segs, path[..|segs|]);
      assert Matches(lits, path[..|segs|]);
    }
    if Matches(lits + tail, path) {
      var k: nat :| k <= |path| && Matches(lits, path[..k]) && Matches(tail, path[k..]);
      LiteralMatchesItself(segs, path[..k]);
    }
  }

  lemma CompiledBelow(p: string, wild: string)
    requires ValidatePath(p).Valid? && wild in {"*", "**"}
    ensures var segs := Split(p);
            Compile(p + "/" + wild)
              == Pattern(seq(|segs|, i requires 0 <= i < |segs| => Literal(segs[i]))
                         + [if wild == "*" then Star else DoubleStar])
  {
    SplitAtSlash(p, wild);
    SplitSingle(wild);
    var segs, parts := Split(p), Split(p + "/" + wild);
    forall i | 0 <= i < |segs|
      ensures parts[i] == segs[i] && ValidSegment(parts[i]) && CompileSeg(parts[i]) == Literal(segs[i])
    {
      assert ValidSegment(segs[i]) && SegmentChar(segs[i][0]);
    }
    var compiled := seq(|parts|, i requires 0 <= i < |parts| => CompileSeg(parts[i]));
    assert compiled == seq(|segs|, i requires 0 <= i < |segs| => Literal(segs[i])) + [CompileSeg(wild)];
    assert "*" != "**" by {
      assert |"*"| == 1;
    }
  }

  /** `path` continues `p` behind a slash. */
  predicate Below(p: string, path: string) {
    |p| < |path| && path[..|p|] == p && path[|p|] == '/'
  }

  lemma BelowPieces(p: string, path: string)
    requires Below(p, path)
    ensures Split(path) == Split(p) + Split(path[|p| + 1..])
  {
    assert path == p + "/" + path[|p| + 1..];
    SplitAtSlash(p, path[|p| + 1..]);
  }

  lemma PiecesBelow(p: string, path: string)
    requires Split(p) <= Split(path) && |Split(p)| < |Split(path)|
    ensures Below(p, path)
  {
    var segs, parts := Split(p), Split(path);
    JoinSplit(p);
    JoinSplit(path);
    assert parts == segs + parts[|segs|..];
    JoinConcat(segs, parts[|segs|..]);
  }

  lemma OnePiece(s: string)
    ensures |Split(s)| == 1 <==> '/' !in s
  {
    if '/' in s {
      var k := FirstSlash(s);
      assert s == s[..k] + "/" + s[k + 1..];
      SplitAtSlash(s[..k], s[k + 1..]);
    } else {
      SplitSingle(s);
    }
  }

  lemma WildSelects(p: string, wild: string, path: string)
    requires ValidatePath(p).Valid? && wild in {"*", "**"}
    ensures Compile(p + "/" + wild).Pattern?
    ensures Matches(Compile(p + "/" + wild).segs, Split(path))
            <==> Below(p, path) && (wild == "*" ==> '/' !in path[|p| + 1..])
  {
    CompiledBelow(p, wild);
    var segs, parts := Split(p), Split(path);
    MatchConcatLiterals(segs, [if wild == "*" then Star else DoubleStar], parts);
    if Below(p, path) {
      BelowPieces(p, path);
      OnePiece(path[|p| + 1..]);
      assert parts[|segs|..] == Split(path[|p| + 1..]);
      OneWild(parts[|segs|..]);
    } else if segs <= parts {
      OneWild(parts[|segs|..]);
      if |parts| > |segs| {
        PiecesBelow(p, path);
      }
    }
  }

  /** A final double star selects everything below the path before it, never that path; a star, one segment more. */
  lemma WildcardsSelect(p: string, path: string)
    requires ValidatePath(p).Valid?
    ensures Compile(p + "/**").Pattern? && Compile(p + "/*").Pattern?
    ensures Matches(Compile(p + "/**").segs, Split(path)) <==> Below(p, path)
    ensures Matches(Compile(p + "/*").segs, Split(path)) <==> Below(p, path) && '/' !in path[|p| + 1..]
  {
    assert p + "/" + "**" == p + "/**" && p + "/" + "*" == p + "/*";
    assert |"*"| == 1;
    WildSelects(p, "*", path);
    WildSelects(p, "**", path);
  }

  lemma OneWild(path: seq<string>)
    ensures Matches([Star], path) <==> |path| == 1
    ensures Matches([DoubleStar], path) <==> |path| >= 1
  {
    if |path| >= 1 {
      assert MatchFrom([DoubleStar], 1, path, |path|);
    }
  }
}
