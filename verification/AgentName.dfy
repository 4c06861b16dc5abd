/** The herdr name of an agent: its dashed path when that is legal, else a readable head and a hash. */
module AgentName {
  import opened Paths

  const MAX_NAME: nat := 32
  const HEAD_LEN: nat := 14

  predicate Lower(c: char) {
    'a' <= c <= 'z'
  }

  predicate NameChar(c: char) {
    SegmentChar(c) || c == '-'
  }

  /** herdr's grammar: a lower-case letter, then letters, digits, dashes and underscores, 32 characters at most. */
  predicate ValidName(name: string) {
    && name != "" && Lower(name[0]) && |name| <= MAX_NAME
    && forall i :: 0 <= i < |name| ==> NameChar(name[i])
  }

  function Dash(c: char): char {
    if SegmentChar(c) then c else '-'
  }

  function Slug(path: string): (slug: string)
    ensures |slug| == |path| && forall i :: 0 <= i < |path| ==> slug[i] == Dash(path[i])
  {
    seq(|path|, i requires 0 <= i < |path| => Dash(path[i]))
  }

  // ---- the hash ----

  const TWO_64: nat := 0x1_0000_0000_0000_0000
  const FNV_BASIS: nat := 0xcbf2_9ce4_8422_2325
  const FNV_PRIME: nat := 0x0000_0100_0000_01b3

  /** The byte of an ASCII character; paths have no others. */
  function Octet(c: char): (b: nat)
    ensures b < 256
  {
    (c as int) % 256
  }

  /** Exclusive or with one byte touches the lowest byte only. */
  function XorByte(h: nat, b: nat): nat
    requires b < 256
  {
    h - h % 256 + (((h % 256) as bv8) ^ (b as bv8)) as nat
  }

  /** One byte of FNV-1a, multiplying modulo two to the 64. */
  function FnvStep(h: nat, c: char): nat {
    XorByte(h, Octet(c)) * FNV_PRIME % TWO_64
  }

  /** 64-bit FNV-1a. */
  function Fnv1a64(bytes: string): (h: nat)
    ensures h < TWO_64
  {
    if bytes == "" then FNV_BASIS else FnvStep(Fnv1a64(bytes[..|bytes| - 1]), bytes[|bytes| - 1])
  }

  method Hash(bytes: string) returns (h: nat)
    ensures h == Fnv1a64(bytes)
  {
    h := FNV_BASIS;
    var i := 0;
    while i < |bytes|
      invariant i <= |bytes| && h == Fnv1a64(bytes[..i])
    {
      assert bytes[..i + 1][..i] == bytes[..i];
      h := FnvStep(h, bytes[i]);
      i := i + 1;
    }
    assert bytes[..i] == bytes;
  }

  /** Published test vectors of the algorithm. */
  lemma FnvVectors()
    ensures Fnv1a64("") == 0xcbf29ce484222325
    ensures Fnv1a64("a") == 0xaf63dc4c8601ec8c
    ensures Fnv1a64("f") == 0xaf63db4c8601ead9
  {
    StepOfA();
    FnvNext("", 'a', 0xcbf29ce484222325, 0xaf63dc4c8601ec8c);
    StepOfF();
    FnvNext("", 'f', 0xcbf29ce484222325, 0xaf63db4c8601ead9);
    assert "" + ['a'] == "a" && "" + ['f'] == "f";
  }

  lemma StepOfA()
    ensures FnvStep(0xcbf29ce484222325, 'a') == 0xaf63dc4c8601ec8c
  {
    assert ((0x25 as bv8) ^ (0x61 as bv8)) as nat == 0x44;
    XorIs(0xcbf29ce484222325, 0x25, 0x61, 0x44);
    assert Octet('a') == 0x61 && XorByte(0xcbf29ce484222325, 0x61) == 0xcbf29ce484222344;
    assert 0xcbf29ce484222344 * FNV_PRIME % TWO_64 == 0xaf63dc4c8601ec8c;
  }

  lemma StepOfF()
    ensures FnvStep(0xcbf29ce484222325, 'f') == 0xaf63db4c8601ead9
  {
    assert ((0x25 as bv8) ^ (0x66 as bv8)) as nat == 0x43;
    XorIs(0xcbf29ce484222325, 0x25, 0x66, 0x43);
    assert Octet('f') == 0x66 && XorByte(0xcbf29ce484222325, 0x66) == 0xcbf29ce484222343;
    assert 0xcbf29ce484222343 * FNV_PRIME % TWO_64 == 0xaf63db4c8601ead9;
  }

  lemma FnvNext(bytes: string, c: char, before: nat, after: nat)
    requires Fnv1a64(bytes) == before && FnvStep(before, c) == after
    ensures Fnv1a64(bytes + [c]) == after
  {
    assert (bytes + [c])[..|bytes|] == bytes;
  }

  lemma XorIs(h: nat, low: nat, b: nat, mixed: nat)
    requires low < 256 && b < 256 && h % 256 == low && ((low as bv8) ^ (b as bv8)) as nat == mixed
    ensures XorByte(h, b) == h - low + mixed
  {
  }

  const HEX_DIGITS: string := "0123456789abcdef"

  /** The lowest `width` hex digits, zero-padded. */
  function Hex(n: nat, width: nat): (s: string)
    ensures |s| == width
  {
    if width == 0 then "" else Hex(n / 16, width - 1) + [HEX_DIGITS[n % 16]]
  }

  function Pow16(w: nat): nat {
    if w == 0 then 1 else 16 * Pow16(w - 1)
  }

  lemma HexDigitsDiffer(d: nat, e: nat)
    requires d < 16 && e < 16 && HEX_DIGITS[d] == HEX_DIGITS[e]
    ensures d == e
  {
  }

  /** The digits determine a number that fits them. */
  lemma {:induction false} HexInjective(n: nat, m: nat, width: nat)
    requires n < Pow16(width) && m < Pow16(width) && Hex(n, width) == Hex(m, width)
    ensures n == m
  {
    if width > 0 {
      var s, t := Hex(n, width), Hex(m, width);
      assert s[..width - 1] == Hex(n / 16, width - 1) && t[..width - 1] == Hex(m / 16, width - 1);
      HexInjective(n / 16, m / 16, width - 1);
      assert s[width - 1] == HEX_DIGITS[n % 16] && t[width - 1] == HEX_DIGITS[m % 16];
      HexDigitsDiffer(n % 16, m % 16);
    }
  }

  function DigitValue(c: char): int {
    if '0' <= c <= '9' then c as int - '0' as int else c as int - 'a' as int + 10
  }

  /** What a text of hex digits denotes, the first digit weighing most. */
  function HexValue(s: string): int {
    if s == "" then 0 else 16 * HexValue(s[..|s| - 1]) + DigitValue(s[|s| - 1])
  }

  /** The digits denote the number. */
  lemma {:induction false} HexDenotes(n: nat, width: nat)
    requires n < Pow16(width)
    ensures HexValue(Hex(n, width)) == n
  {
    if width > 0 {
      var s := Hex(n, width);
      assert s[..width - 1] == Hex(n / 16, width - 1) && s[width - 1] == HEX_DIGITS[n % 16];
      HexDenotes(n / 16, width - 1);
      DigitDenotes(n % 16);
    }
  }

  lemma DigitDenotes(d: nat)
    requires d < 16
    ensures DigitValue(HEX_DIGITS[d]) == d
  {
  }

  lemma SixteenDigits()
    ensures Pow16(16) == TWO_64
  {
    assert Pow16(4) == 0x1_0000;
    assert Pow16(8) == 0x1_0000_0000;
    assert Pow16(12) == 0x1_0000_0000_0000;
  }

  lemma {:induction false} HexChars(n: nat, width: nat, k: nat)
    requires k < width
    ensures SegmentChar(Hex(n, width)[k])
  {
    if k < width - 1 {
      HexChars(n / 16, width - 1, k);
    }
  }

  // ---- the name ----

  /** Drops trailing dashes and underscores. */
  function Trimmed(head: string): string {
    if head != "" && (head[|head| - 1] == '-' || head[|head| - 1] == '_') then Trimmed(head[..|head| - 1]) else head
  }

  /** The readable head of a hashed name. */
  function Head(path: string): string {
    var slug := Slug(path);
    var start := if slug != "" && Lower(slug[0]) then slug else "a" + slug;
    Trimmed(if |start| > HEAD_LEN then start[..HEAD_LEN] else start)
  }

  /** A path whose dashed form is not a legal name. */
  predicate Hashed(path: string) {
    !ValidName(Slug(path))
  }

  function Name(path: string): string {
    if Hashed(path) then Head(path) + "--" + Hex(Fnv1a64(path), 16) else Slug(path)
  }

  /** The readable start of a hashed name: the dashed path, behind an `a` if that does not start with a letter. */
  predicate StartsAs(path: string, start: string) {
    || start == "a" + Slug(path)
    || (start == Slug(path) && start != "" && 'a' <= start[0] <= 'z')
  }

  /** A valid path starts with a letter or not, and so does its readable start. */
  lemma StartShape(path: string) returns (start: string)
    requires ValidatePath(path).Valid?
    ensures StartsAs(path, start) && ('a' <= path[0] <= 'z' <==> start == Slug(path))
    ensures Head(path) == Trimmed(if |start| > 14 then start[..14] else start)
    ensures 'a' <= start[0] <= 'z'
  {
    PathChars(path);
    SlugIsPath(path);
    SlugDiffersFromLonger(Slug(path));
    start := if 'a' <= path[0] <= 'z' then Slug(path) else "a" + Slug(path);
  }

  lemma HeadShape(start: string) returns (head: string)
    requires start != "" && 'a' <= start[0] <= 'z'
    ensures head == Trimmed(if |start| > 14 then start[..14] else start)
    ensures head <= start && 1 <= |head| <= 14 && head[|head| - 1] !in {'-', '_'}
    ensures forall k :: |head| <= k < 14 && k < |start| ==> start[k] in {'-', '_'}
  {
    var cut := if |start| > 14 then start[..14] else start;
    head := Trimmed(cut);
    TrimmedKeepsFirst(cut);
    TrimmedIsLongest(cut);
  }

  /**
   * A valid path whose dashed form starts with a letter and fits 32 characters is named by that form, its slashes
   * turned into dashes. Any other is named by a head, two dashes and the 16 hex digits of its hash; the head is the
   * longest beginning of its readable start, 14 characters at most, that does not end in a dash or underscore.
   */
  lemma NameShape(path: string) returns (head: string, start: string)
    requires ValidatePath(path).Valid?
    ensures 'a' <= path[0] <= 'z' && |path| <= 32 ==>
              && |Name(path)| == |path|
              && forall i :: 0 <= i < |path| ==> Name(path)[i] == if path[i] == '/' then '-' else path[i]
    ensures !('a' <= path[0] <= 'z' && |path| <= 32) ==> Name(path) == head + "--" + Hex(Fnv1a64(path), 16)
    ensures StartsAs(path, start) && ('a' <= path[0] <= 'z' <==> start == Slug(path))
    ensures head <= start && 1 <= |head| <= 14 && head[|head| - 1] !in {'-', '_'}
    ensures forall k :: |head| <= k < 14 && k < |start| ==> start[k] in {'-', '_'}
  {
    SlugIsPath(path);
    start := StartShape(path);
    head := HeadShape(start);
  }

  lemma SlugDiffersFromLonger(slug: string)
    ensures slug != "a" + slug
  {
    assert |"a" + slug| == |slug| + 1;
  }

  /** The dashed form of a valid path is a legal name exactly when it starts with a letter and is not too long. */
  lemma SlugIsPath(path: string)
    requires ValidatePath(path).Valid?
    ensures forall i :: 0 <= i < |path| ==> Slug(path)[i] == if path[i] == '/' then '-' else path[i]
    ensures ValidName(Slug(path)) <==> 'a' <= path[0] <= 'z' && |path| <= 32
  {
    PathChars(path);
    assert !SegmentChar('/') && !SegmentChar('-');
  }

  lemma {:induction false} TrimmedIsLongest(head: string)
    ensures Trimmed(head) <= head
    ensures Trimmed(head) != "" ==> Trimmed(head)[|Trimmed(head)| - 1] !in {'-', '_'}
    ensures forall k :: |Trimmed(head)| <= k < |head| ==> head[k] in {'-', '_'}
  {
    if head != "" && (head[|head| - 1] == '-' || head[|head| - 1] == '_') {
      TrimmedIsLongest(head[..|head| - 1]);
    }
  }

  /** `herdr_agent_name`, trimming the head in place. */
  method HerdrAgentName(path: string) returns (name: string)
    ensures name == Name(path)
  {
    var slug := Slug(path);
    if ValidName(slug) {
      return slug;
    }
    var head := slug;
    if head == "" || !Lower(head[0]) {
      head := "a" + head;
    }
    if |head| > HEAD_LEN {
      head := head[..HEAD_LEN];
    }
    ghost var start := head;
    while head != "" && (head[|head| - 1] == '-' || head[|head| - 1] == '_')
      invariant Trimmed(head) == Trimmed(start)
      decreases |head|
    {
      head := head[..|head| - 1];
    }
    TrimmedKeepsFirst(start);
    if head == "" {
      head := "a";
    }
    var h := Hash(path);
    name := head + "--" + Hex(h, 16);
  }

  lemma {:induction false} TrimmedKeepsFirst(head: string)
    requires head != "" && Lower(head[0])
    ensures Trimmed(head) != "" && Trimmed(head) <= head
  {
    if |head| > 1 && (head[|head| - 1] == '-' || head[|head| - 1] == '_') {
      TrimmedKeepsFirst(head[..|head| - 1]);
    }
  }

  /** Whatever it is given, the derived name satisfies herdr's grammar and length bound. */
  lemma NameIsValid(path: string)
    ensures ValidName(Name(path))
  {
    if Hashed(path) {
      HeadIsValid(path);
      HashedIsValid(Head(path), Fnv1a64(path));
    }
  }

  lemma HeadIsValid(path: string)
    ensures ValidName(Head(path)) && |Head(path)| <= HEAD_LEN
  {
    var slug := Slug(path);
    var start := if slug != "" && Lower(slug[0]) then slug else "a" + slug;
    TrimmedKeepsFirst(if |start| > HEAD_LEN then start[..HEAD_LEN] else start);
  }

  lemma HashedIsValid(head: string, h: nat)
    requires ValidName(head) && |head| <= HEAD_LEN
    ensures ValidName(head + "--" + Hex(h, 16))
  {
    var name := head + "--" + Hex(h, 16);
    forall i | 0 <= i < |name|
      ensures NameChar(name[i])
    {
      if i >= |head| + 2 {
        assert name[i] == Hex(h, 16)[i - |head| - 2];
        HexChars(h, 16, i - |head| - 2);
      } else if i < |head| {
        assert name[i] == head[i];
      }
    }
  }

  // ---- injectivity ----

  /** Every character of a text sits in one of its pieces, and two adjacent slashes leave an empty piece. */
  lemma {:induction false} SplitShape(s: string, i: nat)
    requires i < |s|
    ensures s[i] != '/' ==> exists k :: 0 <= k < |Split(s)| && s[i] in Split(s)[k]
    ensures i > 0 && s[i - 1] == '/' && s[i] == '/' ==> exists k :: 1 <= k < |Split(s)| && Split(s)[k] == ""
  {
    var segs, rest := Split(s), Split(s[1..]);
    assert s[0] != '/' ==> segs[0] == [s[0]] + rest[0];
    if i == 0 {
      assert s[0] != '/' ==> s[0] in segs[0];
    } else {
      SplitShape(s[1..], i - 1);
      var shift := if s[0] == '/' then 1 else 0;
      assert forall k :: 1 <= k < |rest| ==> segs[k + shift] == rest[k];
      assert s[1..][i - 1] == s[i];
      if s[i] != '/' {
        var k :| 0 <= k < |rest| && s[i] in rest[k];
        assert s[i] in segs[k + shift];
      } else if s[i - 1] == '/' {
        if i == 1 {
          assert s[1..] != "" && rest[0] == "" && segs[1] == rest[0];
        } else {
          var k :| 1 <= k < |rest| && rest[k] == "";
          assert segs[k + shift] == "";
        }
      }
    }
  }

  lemma PathChars(path: string)
    requires ValidatePath(path).Valid?
    ensures forall i :: 0 <= i < |path| ==> path[i] == '/' || SegmentChar(path[i])
    ensures forall i :: 0 < i < |path| ==> !(path[i - 1] == '/' && path[i] == '/')
  {
    var segs := Split(path);
    assert forall k :: 0 <= k < |segs| ==> ValidSegment(segs[k]);
    forall i | 0 <= i < |path|
      ensures path[i] == '/' || SegmentChar(path[i])
      ensures i > 0 ==> !(path[i - 1] == '/' && path[i] == '/')
    {
      SplitShape(path, i);
    }
  }

  /** The dashed form of a valid path determines the path. */
  lemma SlugInjective(p: string, q: string)
    requires ValidatePath(p).Valid? && ValidatePath(q).Valid? && Slug(p) == Slug(q)
    ensures p == q
  {
    PathChars(p);
    PathChars(q);
    forall i | 0 <= i < |p|
      ensures p[i] == q[i]
    {
      assert Dash(p[i]) == Slug(p)[i] == Slug(q)[i] == Dash(q[i]);
      assert !SegmentChar('-');
    }
  }

  lemma DashIsSlash(c: char)
    requires c == '/' || SegmentChar(c)
    ensures Dash(c) == '-' <==> c == '/'
  {
    assert !SegmentChar('-');
  }

  ghost predicate HasDoubleDash(name: string) {
    exists i :: 0 < i < |name| && name[i - 1] == '-' && name[i] == '-'
  }

  lemma SlugHasNoDoubleDash(path: string)
    requires ValidatePath(path).Valid?
    ensures !HasDoubleDash(Slug(path))
  {
    PathChars(path);
    forall i | 0 < i < |path|
      ensures !(Slug(path)[i - 1] == '-' && Slug(path)[i] == '-')
    {
      DashIsSlash(path[i - 1]);
      DashIsSlash(path[i]);
    }
  }

  /**
   * Two valid paths share a name exactly when they are the same path, or both are hashed with equal heads and hashes.
   */
  lemma NameCollision(p: string, q: string)
    requires ValidatePath(p).Valid? && ValidatePath(q).Valid?
    ensures Name(p) == Name(q)
            <==> p == q || (Hashed(p) && Hashed(q) && Head(p) == Head(q) && Fnv1a64(p) == Fnv1a64(q))
  {
    if Name(p) == Name(q) {
      if !Hashed(p) && !Hashed(q) {
        SlugInjective(p, q);
      } else if Hashed(p) && Hashed(q) {
        SameTail(Head(p), Hex(Fnv1a64(p), 16), Head(q), Hex(Fnv1a64(q), 16));
        SixteenDigits();
        HexInjective(Fnv1a64(p), Fnv1a64(q), 16);
      } else if Hashed(p) {
        HashedHasDoubleDash(p);
        SlugHasNoDoubleDash(q);
      } else {
        HashedHasDoubleDash(q);
        SlugHasNoDoubleDash(p);
      }
    }
  }

  lemma HashedHasDoubleDash(path: string)
    requires Hashed(path)
    ensures HasDoubleDash(Name(path))
  {
    DashesAfter(Head(path), Hex(Fnv1a64(path), 16));
  }

  lemma DashesAfter(head: string, tail: string)
    ensures HasDoubleDash(head + "--" + tail)
  {
    var s := head + "--" + tail;
    assert s[|head|] == '-' && s[|head| + 1] == '-';
    assert s[(|head| + 1) - 1] == '-';
  }

  lemma SameTail(a: string, x: string, b: string, y: string)
    requires |x| == |y| && a + "--" + x == b + "--" + y
    ensures a == b && x == y
  {
    var s, t := a + "--" + x, b + "--" + y;
    assert |a| == |b|;
    assert s[..|a|] == a && t[..|b|] == b;
    assert s[|a| + 2..] == x && t[|b| + 2..] == y;
  }
}
