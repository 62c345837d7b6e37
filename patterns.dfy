/**
 * The three shapes of regular expression the runner compiles, each with
 * Python `re.search` semantics written out as a scanner:
 *
 *  - `HEAD([class]+)` and `HEAD.+?TAIL([class]+)`: the statistic
 *    extraction patterns (src/runner/constants.py:170-180) and the
 *    host/port pattern `://(.+?):([0-9]{1,5})/?` (src/runner/constants.py:43);
 *  - `(:[A-Za-z0-9_-]+$)`: the label suffix of a section name
 *    (src/runner/constants.py:40, runner/ConfigReader.py:25).
 *
 * `search` tries the start positions from left to right and takes the
 * first one where the pattern matches; the lazy gap `.+?` takes the
 * shortest run of at least one non-newline character after which the
 * rest matches; a character class run is greedy.
 */
module Patterns {
  import opened Wrappers
  import opened Text

  datatype CharClass = Digits | DigitsDot | LabelChars

  predicate InClass(c: char, cls: CharClass) {
    match cls
    case Digits => IsDigit(c)
    case DigitsDot => IsDigit(c) || c == '.'
    case LabelChars => 'A' <= c <= 'Z' || 'a' <= c <= 'z' || IsDigit(c) || c == '_' || c == '-'
  }

  /**
   * `head`, then (when `lazyGap`) `.+?`, then `tail`, then a capturing
   * run of `cls` characters, at most `limit` of them when a limit is given.
   */
  datatype Pattern = Pattern(head: string, lazyGap: bool, tail: string, cls: CharClass, limit: Option<nat>)

  /** What a match captured: the lazy gap (empty when there is none) and the class run. */
  datatype Groups = Groups(gap: string, cap: string)

  predicate AllIn(s: string, cls: CharClass) {
    forall k :: 0 <= k < |s| ==> InClass(s[k], cls)
  }

  predicate Within(n: nat, limit: Option<nat>) {
    limit.None? || n <= limit.value
  }

  /** The length of the greedy run of `cls` characters starting at `j`. */
  function ClassRun(s: string, j: nat, cls: CharClass, limit: Option<nat>): (n: nat)
    requires j <= |s|
    ensures j + n <= |s| && Within(n, limit)
    decreases |s| - j
  {
    if j < |s| && InClass(s[j], cls) && (limit.None? || limit.value > 0) then
      1 + ClassRun(s, j + 1, cls, Less(limit))
    else 0
  }

  function Less(limit: Option<nat>): Option<nat> {
    if limit.None? || limit.value == 0 then limit else Some(limit.value - 1)
  }

  /** The run is made of class characters and stops at the end, at a non-class character or at the limit. */
  lemma {:induction false} ClassRunSound(s: string, j: nat, cls: CharClass, limit: Option<nat>)
    requires j <= |s|
    ensures var n := ClassRun(s, j, cls, limit);
      AllIn(s[j..j + n], cls) &&
      (j + n == |s| || !InClass(s[j + n], cls) || limit == Some(n))
    decreases |s| - j
  {
    var n := ClassRun(s, j, cls, limit);
    if n > 0 {
      ClassRunSound(s, j + 1, cls, Less(limit));
      assert s[j..j + n] == [s[j]] + s[j + 1..j + n];
    }
  }

  /** Does `t` occur in `s` at position `k`? */
  predicate At(s: string, k: nat, t: string) {
    k + |t| <= |s| && s[k..k + |t|] == t
  }

  /** `tail([class]+)` at position `k`: the captured run, or `None`. */
  function TailCap(p: Pattern, s: string, k: nat): Option<string> {
    if At(s, k, p.tail) && k + |p.tail| < |s| && InClass(s[k + |p.tail|], p.cls) && p.limit != Some(0) then
      var c := k + |p.tail|;
      var n := ClassRun(s, c, p.cls, p.limit);
      Some(s[c..c + n])
    else None
  }

  /**
   * A capture follows the tail, is a non-empty run of class characters,
   * and stops at the end, at a character outside the class or at the limit.
   */
  lemma TailCapSound(p: Pattern, s: string, k: nat)
    requires TailCap(p, s, k).Some?
    ensures var c := TailCap(p, s, k).value;
      var m := k + |p.tail|;
      At(s, k, p.tail) && |c| > 0 && AllIn(c, p.cls) && Within(|c|, p.limit) &&
      m + |c| <= |s| && s[m..m + |c|] == c &&
      (m + |c| == |s| || !InClass(s[m + |c|], p.cls) || p.limit == Some(|c|))
  {
    ClassRunSound(s, k + |p.tail|, p.cls, p.limit);
  }

  /**
   * The lazy `.+?` after position `j`, for any capture test `cap` at the
   * position where the gap ends: try gap lengths `g`, `g + 1`, ... and stop
   * at the first one where `cap` succeeds; the gap may not run into a
   * newline or past the end.
   */
  function FirstGap(s: string, j: nat, g: nat, cap: nat -> Option<string>): (r: Option<Groups>)
    requires g >= 1
    ensures r.Some? ==> g <= |r.value.gap| && j + |r.value.gap| <= |s|
    decreases |s| - (j + g)
  {
    if j + g > |s| || s[j + g - 1] == '\n' then None
    else match cap(j + g)
      case Some(c) => Some(Groups(s[j..j + g], c))
      case None => FirstGap(s, j, g + 1, cap)
  }

  /** The tail and capture test at each position. */
  function Caps(p: Pattern, s: string): nat -> Option<string> {
    (k: nat) => TailCap(p, s, k)
  }

  /** `HEAD.+?TAIL([class]+)` after the head ends at `j`. */
  function LazyGap(p: Pattern, s: string, j: nat, g: nat): (r: Option<Groups>)
    requires g >= 1
    ensures r.Some? ==> g <= |r.value.gap| && j + |r.value.gap| <= |s|
  {
    FirstGap(s, j, g, Caps(p, s))
  }

  /** No newline in `s[a..b]`. */
  predicate NoNewline(s: string, a: nat, b: nat)
    requires a <= b <= |s|
  {
    forall k :: a <= k < b ==> s[k] != '\n'
  }

  /** The tail and capture match at no position in `[a, b)`. */
  predicate NoTailIn(p: Pattern, s: string, a: nat, b: nat) {
    forall k :: a <= k < b ==> TailCap(p, s, k).None?
  }

  /**
   * What the gap search found: the gap is the text after `j`, has no
   * newline, the capture test succeeds right after it, and at no
   * shorter gap.
   */
  lemma {:induction false} FirstGapSound(s: string, j: nat, g: nat, cap: nat -> Option<string>)
    requires g >= 1 && FirstGap(s, j, g, cap).Some?
    requires j + g - 1 <= |s| && NoNewline(s, j, j + g - 1)
    ensures var r := FirstGap(s, j, g, cap).value;
      r.gap == s[j..j + |r.gap|] && NoNewline(s, j, j + |r.gap|) &&
      cap(j + |r.gap|) == Some(r.cap) && forall k :: j + g <= k < j + |r.gap| ==> cap(k).None?
    decreases |s| - (j + g)
  {
    if cap(j + g).None? {
      FirstGapSound(s, j, g + 1, cap);
    }
  }

  /** The same for the lazy gap of a pattern. */
  lemma LazyGapSound(p: Pattern, s: string, j: nat, g: nat)
    requires g >= 1 && LazyGap(p, s, j, g).Some?
    requires j + g - 1 <= |s| && NoNewline(s, j, j + g - 1)
    ensures var r := LazyGap(p, s, j, g).value;
      r.gap == s[j..j + |r.gap|] && NoNewline(s, j, j + |r.gap|) &&
      TailCap(p, s, j + |r.gap|) == Some(r.cap) && NoTailIn(p, s, j + g, j + |r.gap|)
  {
    var cap := Caps(p, s);
    FirstGapSound(s, j, g, cap);
    var r := FirstGap(s, j, g, cap).value;
    CapsAt(p, s, j + |r.gap|);
    CapsNone(p, s, j + g, j + |r.gap|);
  }

  lemma CapsAt(p: Pattern, s: string, k: nat)
    ensures Caps(p, s)(k) == TailCap(p, s, k)
  {
  }

  lemma CapsNone(p: Pattern, s: string, a: nat, b: nat)
    requires forall k :: a <= k < b ==> Caps(p, s)(k).None?
    ensures NoTailIn(p, s, a, b)
  {
    forall k | a <= k < b ensures TailCap(p, s, k).None? {
      assert Caps(p, s)(k) == TailCap(p, s, k);
    }
  }

  /** The pattern matched with its first character at position `i`. */
  function MatchAt(p: Pattern, s: string, i: nat): Option<Groups> {
    if !At(s, i, p.head) then None
    else if p.lazyGap then LazyGap(p, s, i + |p.head|, 1)
    else match TailCap(p, s, i + |p.head|)
      case Some(c) => Some(Groups("", c))
      case None => None
  }

  /** `re.search` from position `i` on: the first position where the pattern matches. */
  function SearchFrom(p: Pattern, s: string, i: nat): Option<Groups>
    decreases |s| + 1 - i
  {
    if i > |s| then None
    else match MatchAt(p, s, i)
      case Some(g) => Some(g)
      case None => SearchFrom(p, s, i + 1)
  }

  function Search(p: Pattern, s: string): Option<Groups> {
    SearchFrom(p, s, 0)
  }

  /**
   * `Runner.get_re_match` (src/runner/runner.py:174-186): the first
   * capturing group of `regex.search(string)`, or `None`. For the
   * extraction patterns the first group is the class run.
   */
  function GetReMatch(p: Pattern, s: string): (r: Option<string>)
    ensures r.Some? <==> Search(p, s).Some?
  {
    match Search(p, s)
    case Some(g) => Some(g.cap)
    case None => None
  }

  /** `search` returns the leftmost match, and `None` only when no position matches. */
  lemma {:induction false} SearchLeftmost(p: Pattern, s: string, i: nat)
    ensures SearchFrom(p, s, i).Some? ==>
      exists k :: i <= k <= |s| && MatchAt(p, s, k) == SearchFrom(p, s, i) &&
        forall m :: i <= m < k ==> MatchAt(p, s, m).None?
    ensures SearchFrom(p, s, i).None? ==> forall k :: i <= k <= |s| ==> MatchAt(p, s, k).None?
    decreases |s| + 1 - i
  {
    if i <= |s| && MatchAt(p, s, i).None? {
      SearchLeftmost(p, s, i + 1);
      if SearchFrom(p, s, i + 1).Some? {
        var k :| i + 1 <= k <= |s| && MatchAt(p, s, k) == SearchFrom(p, s, i + 1) &&
          forall m :: i + 1 <= m < k ==> MatchAt(p, s, m).None?;
        assert MatchAt(p, s, k) == SearchFrom(p, s, i);
      }
    }
  }

  /** A match at `i` spells out head, gap, tail and the captured run there. */
  lemma MatchAtSound(p: Pattern, s: string, i: nat)
    requires MatchAt(p, s, i).Some?
    ensures var g := MatchAt(p, s, i).value;
      var k := i + |p.head| + |g.gap| + |p.tail|;
      k + |g.cap| <= |s| && s[i..k + |g.cap|] == p.head + g.gap + p.tail + g.cap &&
      |g.cap| > 0 && AllIn(g.cap, p.cls) && (p.lazyGap <==> |g.gap| > 0)
  {
    MatchAtParts(p, s, i);
    PartsSpell(p, s, i, MatchAt(p, s, i).value);
  }

  lemma PartsSpell(p: Pattern, s: string, i: nat, g: Groups)
    requires At(s, i, p.head) && i + |p.head| + |g.gap| <= |s|
    requires s[i + |p.head|..i + |p.head| + |g.gap|] == g.gap
    requires TailCap(p, s, i + |p.head| + |g.gap|) == Some(g.cap)
    ensures var k := i + |p.head| + |g.gap| + |p.tail|;
      k + |g.cap| <= |s| && s[i..k + |g.cap|] == p.head + g.gap + p.tail + g.cap &&
      |g.cap| > 0 && AllIn(g.cap, p.cls)
  {
    TailCapSound(p, s, i + |p.head| + |g.gap|);
    Spell(s, i, p.head, g.gap, p.tail, g.cap);
  }

  /** Four pieces read one after the other spell their concatenation. */
  lemma Spell(s: string, i: nat, a: string, b: string, c: string, d: string)
    requires At(s, i, a) && At(s, i + |a|, b) && At(s, i + |a| + |b|, c) && At(s, i + |a| + |b| + |c|, d)
    ensures var e := i + |a| + |b| + |c| + |d|;
      e <= |s| && s[i..e] == a + b + c + d
  {
    var j := i + |a|;
    var m := j + |b|;
    var k := m + |c|;
    SliceConcat(s, i, j, m, k, k + |d|);
  }

  /** The pieces of a match at `i`: the head, then the gap, then a capture. */
  lemma MatchAtParts(p: Pattern, s: string, i: nat)
    requires MatchAt(p, s, i).Some?
    ensures var g := MatchAt(p, s, i).value;
      var j := i + |p.head|;
      At(s, i, p.head) && j + |g.gap| <= |s| && s[j..j + |g.gap|] == g.gap &&
      TailCap(p, s, j + |g.gap|) == Some(g.cap) && (p.lazyGap <==> |g.gap| > 0)
  {
    var j := i + |p.head|;
    if p.lazyGap {
      MatchAtLazy(p, s, i);
      LazyGapSound(p, s, j, 1);
    } else {
      MatchAtPlain(p, s, i);
      assert s[j..j] == "";
    }
  }

  lemma MatchAtPlain(p: Pattern, s: string, i: nat)
    requires !p.lazyGap && MatchAt(p, s, i).Some?
    ensures At(s, i, p.head) && MatchAt(p, s, i) == Some(Groups("", TailCap(p, s, i + |p.head|).value))
  {
  }

  lemma SliceConcat(s: string, a: nat, b: nat, c: nat, d: nat, e: nat)
    requires a <= b <= c <= d <= e <= |s|
    ensures s[a..e] == s[a..b] + s[b..c] + s[c..d] + s[d..e]
  {
    assert s[a..e] == s[a..b] + s[b..e];
    assert s[b..e] == s[b..c] + s[c..e];
    assert s[c..e] == s[c..d] + s[d..e];
  }

  // ---------------------------------------------------------------------
  // Instances

  /** A capture taken where the text reads `tail`, then `c`, then a character outside the class. */
  lemma TailCapHere(p: Pattern, s: string, k: nat, c: string, rest: string)
    requires |c| > 0 && AllIn(c, p.cls) && Within(|c|, p.limit) && Stops(|c|, rest, p.cls, p.limit)
    requires k <= |s| && s[k..] == p.tail + c + rest
    ensures TailCap(p, s, k) == Some(c)
  {
    var m := k + |p.tail|;
    assert p.tail + c + rest == p.tail + (c + rest);
    GapText(s, k, p.tail, c + rest);
    assert s[m] == c[0] by {
      assert s[m..][0] == s[m];
    }
    RunLength(s, m, c, rest, p.cls, p.limit);
    assert s[m..m + |c|] == c by {
      GapText(s, m, c, rest);
    }
  }


  /** A slice of a suffix is a slice of the whole. */
  lemma SliceOfSuffix(s: string, k: nat, t: string, a: nat, b: nat)
    requires k <= |s| && s[k..] == t && a <= b <= |t|
    ensures k + b <= |s| && s[k + a..k + b] == t[a..b]
  {
    assert s[k..][a..b] == s[k + a..k + b];
  }

  /** A run of `n` characters stops before `rest`: at its end, at a non-class character, or at the limit. */
  predicate Stops(n: nat, rest: string, cls: CharClass, limit: Option<nat>) {
    rest == [] || !InClass(rest[0], cls) || limit == Some(n)
  }

  lemma {:induction false} RunLength(s: string, m: nat, c: string, rest: string, cls: CharClass, limit: Option<nat>)
    requires m <= |s| && AllIn(c, cls) && s[m..] == c + rest
    requires Within(|c|, limit) && Stops(|c|, rest, cls, limit)
    ensures ClassRun(s, m, cls, limit) == |c|
    decreases |c|
  {
    if c != [] {
      assert s[m] == s[m..][0] == c[0];
      assert s[m + 1..] == c[1..] + rest by {
        assert s[m + 1..] == s[m..][1..];
      }
      RunLength(s, m + 1, c[1..], rest, cls, Less(limit));
    } else if rest != [] && limit != Some(0) {
      assert s[m] == s[m..][0] == rest[0];
    }
  }

  /**
   * A plain pattern finds the capture of its first occurrence: the text
   * before the head has no character the head starts with.
   */
  lemma PlainFinds(p: Pattern, s: string, pre: string, c: string, rest: string)
    requires !p.lazyGap && |p.head| > 0 && p.head[0] !in pre
    requires |c| > 0 && AllIn(c, p.cls) && Within(|c|, p.limit) && Stops(|c|, rest, p.cls, p.limit)
    requires s == pre + (p.head + (p.tail + c + rest))
    ensures Search(p, s) == Some(Groups("", c))
  {
    Decompose(s, pre, p.head, p.tail + c + rest);
    TailCapHere(p, s, |pre| + |p.head|, c, rest);
    MatchAtPlainHere(p, s, |pre|, c);
    FoundAt(p, s, pre, Groups("", c));
  }

  lemma MatchAtPlainHere(p: Pattern, s: string, i: nat, c: string)
    requires !p.lazyGap && At(s, i, p.head) && TailCap(p, s, i + |p.head|) == Some(c)
    ensures MatchAt(p, s, i) == Some(Groups("", c))
  {
  }

  lemma Decompose(s: string, pre: string, head: string, after: string)
    requires s == pre + (head + after)
    ensures |pre| <= |s| && s[..|pre|] == pre && At(s, |pre|, head) && s[|pre| + |head|..] == after
  {
    var i := |pre|;
    assert s[i..] == head + after;
    assert s[i..][..|head|] == head && s[i..][|head|..] == after;
  }

  /** A match right after a prefix that cannot start the head is what `search` finds. */
  lemma FoundAt(p: Pattern, s: string, pre: string, g: Groups)
    requires |p.head| > 0 && p.head[0] !in pre
    requires |pre| <= |s| && s[..|pre|] == pre && MatchAt(p, s, |pre|) == Some(g)
    ensures Search(p, s) == Some(g)
  {
    SkipPrefix(p, s, pre, 0);
  }

  /** No match starts inside a prefix that lacks the head's first character. */
  lemma {:induction false} SkipPrefix(p: Pattern, s: string, pre: string, i: nat)
    requires |p.head| > 0 && p.head[0] !in pre && i <= |pre| <= |s| && s[..|pre|] == pre
    ensures SearchFrom(p, s, i) == SearchFrom(p, s, |pre|)
    decreases |pre| - i
  {
    if i < |pre| {
      assert s[i] == pre[i];
      assert !At(s, i, p.head);
      SkipPrefix(p, s, pre, i + 1);
    }
  }

  /**
   * A gap pattern finds the capture after the first occurrence of the
   * tail, when the gap has no newline and no character the tail starts with.
   */
  lemma GapFinds(p: Pattern, s: string, pre: string, gap: string, c: string, rest: string)
    requires p.lazyGap && |p.head| > 0 && p.head[0] !in pre
    requires |p.tail| > 0 && |gap| > 0 && '\n' !in gap && p.tail[0] !in gap
    requires |c| > 0 && AllIn(c, p.cls) && Within(|c|, p.limit) && Stops(|c|, rest, p.cls, p.limit)
    requires s == pre + (p.head + (gap + (p.tail + c + rest)))
    ensures Search(p, s) == Some(Groups(gap, c))
  {
    GapPieces(p, s, pre, gap, c, rest);
    LazyFound(p, s, |pre|, gap, c);
    FoundAt(p, s, pre, Groups(gap, c));
  }

  lemma GapPieces(p: Pattern, s: string, pre: string, gap: string, c: string, rest: string)
    requires |c| > 0 && AllIn(c, p.cls) && Within(|c|, p.limit) && Stops(|c|, rest, p.cls, p.limit)
    requires s == pre + (p.head + (gap + (p.tail + c + rest)))
    ensures |pre| <= |s| && s[..|pre|] == pre && At(s, |pre|, p.head)
    ensures |pre| + |p.head| + |gap| <= |s| && s[|pre| + |p.head|..|pre| + |p.head| + |gap|] == gap
    ensures TailCap(p, s, |pre| + |p.head| + |gap|) == Some(c)
  {
    var j := |pre| + |p.head|;
    var after := p.tail + c + rest;
    Decompose(s, pre, p.head, gap + after);
    GapText(s, j, gap, after);
    TailCapHere(p, s, j + |gap|, c, rest);
  }

  /** Where the head is read and only the whole gap is followed by a capture, the lazy gap takes the whole gap. */
  lemma LazyFound(p: Pattern, s: string, i: nat, gap: string, c: string)
    requires p.lazyGap && |p.tail| > 0 && |gap| > 0 && '\n' !in gap && p.tail[0] !in gap
    requires At(s, i, p.head) && i + |p.head| + |gap| <= |s| && s[i + |p.head|..i + |p.head| + |gap|] == gap
    requires TailCap(p, s, i + |p.head| + |gap|) == Some(c)
    ensures MatchAt(p, s, i) == Some(Groups(gap, c))
  {
    GapWalk(p, s, i + |p.head|, gap, c);
    MatchAtLazy(p, s, i);
  }

  lemma MatchAtLazy(p: Pattern, s: string, i: nat)
    requires p.lazyGap && (At(s, i, p.head) || MatchAt(p, s, i).Some?)
    ensures At(s, i, p.head) && MatchAt(p, s, i) == LazyGap(p, s, i + |p.head|, 1)
  {
  }

  lemma GapText(s: string, j: nat, gap: string, after: string)
    requires j <= |s| && s[j..] == gap + after
    ensures j + |gap| <= |s| && s[j..j + |gap|] == gap && s[j + |gap|..] == after
  {
    assert s[j..][..|gap|] == gap && s[j..][|gap|..] == after;
  }

  lemma GapWalk(p: Pattern, s: string, j: nat, gap: string, c: string)
    requires 1 <= |gap| && j + |gap| <= |s| && s[j..j + |gap|] == gap
    requires '\n' !in gap && |p.tail| > 0 && p.tail[0] !in gap
    requires TailCap(p, s, j + |gap|) == Some(c)
    ensures LazyGap(p, s, j, 1) == Some(Groups(gap, c))
  {
    var cap := Caps(p, s);
    forall k | j + 1 <= k < j + |gap| ensures cap(k).None? {
      assert s[k] == gap[k - j];
      assert !At(s, k, p.tail);
    }
    forall k | j <= k < j + |gap| ensures s[k] != '\n' {
      assert s[k] == gap[k - j];
    }
    assert cap(j + |gap|) == Some(c);
    FirstGapWalk(s, j, gap, 1, cap, c);
  }

  /** A gap search over text free of newlines, where only the full gap passes the test, takes the full gap. */
  lemma {:induction false} FirstGapWalk(s: string, j: nat, gap: string, g: nat, cap: nat -> Option<string>, c: string)
    requires 1 <= g <= |gap| && j + |gap| <= |s| && s[j..j + |gap|] == gap
    requires NoNewline(s, j + g - 1, j + |gap|)
    requires forall k :: j + g <= k < j + |gap| ==> cap(k).None?
    requires cap(j + |gap|) == Some(c)
    ensures FirstGap(s, j, g, cap) == Some(Groups(gap, c))
    decreases |gap| - g
  {
    if g < |gap| {
      FirstGapWalk(s, j, gap, g + 1, cap, c);
    }
  }

  // ---------------------------------------------------------------------
  // The section-name label, `(:[A-Za-z0-9_-]+$)`

  /** Where `$` can match: the end, or just before one trailing newline. */
  function LineEnd(s: string): (e: nat)
    ensures e <= |s|
  {
    if |s| > 0 && s[|s| - 1] == '\n' then |s| - 1 else |s|
  }

  /** The position of the last `c` in `s[..n]`, if any. */
  function LastIndexOf(s: string, n: nat, c: char): (r: Option<nat>)
    requires n <= |s|
    ensures r.Some? ==> r.value < n && s[r.value] == c && forall k :: r.value < k < n ==> s[k] != c
    ensures r.None? ==> forall k :: 0 <= k < n ==> s[k] != c
  {
    if n == 0 then None
    else if s[n - 1] == c then Some(n - 1)
    else LastIndexOf(s, n - 1, c)
  }

  /**
   * `RE_DBNAME_LABEL.search(db)` and `RE_DBNAME_LABEL.sub("", db)`
   * together: the name with the label removed, and the label (colon
   * included), or the name unchanged and "" when there is no label.
   */
  function SplitLabel(s: string): (r: (string, string))
    ensures r.1 == "" ==> r.0 == s
    ensures r.1 != "" ==> |r.1| >= 2 && r.1[0] == ':' && AllIn(r.1[1..], LabelChars)
    ensures r.1 != "" ==> LineEnd(s) >= |r.1| && r.1 == s[LineEnd(s) - |r.1|..LineEnd(s)]
    ensures r.1 != "" ==> r.0 == s[..LineEnd(s) - |r.1|] + s[LineEnd(s)..]
  {
    var e := LineEnd(s);
    match LastIndexOf(s, e, ':')
    case None => (s, "")
    case Some(i) =>
      if i + 1 < e && AllIn(s[i + 1..e], LabelChars) then
        (s[..i] + s[e..], s[i..e])
      else (s, "")
  }

  /** A label is found exactly when the text after the last ':' is a non-empty run of label characters. */
  lemma SplitLabelExact(s: string, i: nat)
    requires i < LineEnd(s) && s[i] == ':' && forall k :: i < k < LineEnd(s) ==> s[k] != ':'
    ensures SplitLabel(s).1 != "" <==> (i + 1 < LineEnd(s) && AllIn(s[i + 1..LineEnd(s)], LabelChars))
  {
    var e := LineEnd(s);
    var r := LastIndexOf(s, e, ':');
    assert r == Some(i);
  }

  /** A name without ':' has no label. */
  lemma SplitLabelNone(s: string)
    requires ':' !in s
    ensures SplitLabel(s) == (s, "")
  {
  }

  /** Appending a label to a name gives it back: `SplitLabel(name + label) == (name, label)`. */
  lemma SplitLabelAppend(name: string, run: string)
    requires |run| > 0 && AllIn(run, LabelChars)
    ensures SplitLabel(name + [':'] + run) == (name, [':'] + run)
  {
    var s := name + [':'] + run;
    var i := |name|;
    assert s[|s| - 1] == run[|run| - 1];
    assert !InClass('\n', LabelChars);
    assert LineEnd(s) == |s|;
    assert s[i] == ':';
    forall k | i < k < |s| ensures s[k] != ':' {
      assert s[k] == run[k - i - 1];
      assert !InClass(':', LabelChars);
    }
    assert s[i + 1..] == run;
    SplitLabelExact(s, i);
    var r := LastIndexOf(s, |s|, ':');
    assert r == Some(i);
    assert s[..i] + s[|s|..] == name;
    assert s[i..|s|] == [':'] + run;
  }
}
