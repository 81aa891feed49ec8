/** A backtracking matcher for the fragment of Python's `re` that the crawler's
    patterns use: single-character classes, each repeated once, `?`, `*` or `+`
    (all greedy), one capturing group, and an optional `^` anchor.

    `MatchFrom` tries the longest repetition first and gives characters back one
    at a time, as the `re` engine does; `Search` tries the start positions from
    left to right, as `re.search` (and the first element of `re.findall`) does.
    `Derives` is an independent, order-free description of what a pattern
    accepts; the lemmas at the end show that `Search` finds exactly the leftmost
    position at which `Derives` holds. */
module Regex {
  import opened Wrappers

  datatype Class = AnyOf(chars: set<char>) | NoneOf(chars: set<char>)

  predicate InClass(c: char, k: Class) {
    match k
    case AnyOf(cs) => c in cs
    case NoneOf(cs) => c !in cs
  }

  /** The repetition of one class: exactly once, `?`, `*` or `+`. */
  datatype Rep = Once | Optional | Star | Plus

  function MinRep(r: Rep): nat {
    if r == Once || r == Plus then 1 else 0
  }

  predicate Allows(r: Rep, n: nat) {
    n >= MinRep(r) && ((r == Once || r == Optional) ==> n <= 1)
  }

  /** The most repetitions that are worth trying when `run` characters in a row
      belong to the class. */
  function MaxRep(r: Rep, run: nat): nat {
    if (r == Once || r == Optional) && run > 1 then 1 else run
  }

  /** `Open` and `Close` mark the capturing group `( … )`. */
  datatype Item = Step(cls: Class, rep: Rep) | Open | Close

  datatype Span = Span(start: nat, end: nat)

  datatype Pattern = Pattern(anchored: bool, items: seq<Item>)

  /** A successful search: the matched slice `[start, end)` and the group's span. */
  datatype Hit = Hit(start: nat, end: nat, group: Span)

  predicate AllIn(w: string, k: Class) {
    forall t :: 0 <= t < |w| ==> InClass(w[t], k)
  }

  /** The number of characters of class `k` that follow position `i` in a row. */
  function Run(s: string, i: nat, k: Class): (n: nat)
    requires i <= |s|
    ensures i + n <= |s|
    ensures AllIn(s[i..i + n], k)
    ensures i + n < |s| ==> !InClass(s[i + n], k)
    decreases |s| - i
  {
    if i < |s| && InClass(s[i], k) then
      assert s[i..i + 1 + Run(s, i + 1, k)] == [s[i]] + s[i + 1..i + 1 + Run(s, i + 1, k)];
      1 + Run(s, i + 1, k)
    else 0
  }

  /** The greedy backtracking matcher: the end position and group span of the
      first way (in `re`'s order of preference) of matching `items` at `i`. */
  function MatchFrom(items: seq<Item>, s: string, i: nat, g: Span): (r: Option<(nat, Span)>)
    requires i <= |s|
    ensures r.Some? ==> i <= r.value.0 <= |s|
    decreases |items|, 1, 0
  {
    if items == [] then Some((i, g))
    else
      match items[0]
      case Open => MatchFrom(items[1..], s, i, Span(i, g.end))
      case Close => MatchFrom(items[1..], s, i, Span(g.start, i))
      case Step(k, rep) => TryCounts(items, s, i, g, MaxRep(rep, Run(s, i, k)))
  }

  /** Tries `n`, `n - 1`, … repetitions of `items[0]`, down to its minimum. */
  function TryCounts(items: seq<Item>, s: string, i: nat, g: Span, n: nat): (r: Option<(nat, Span)>)
    requires items != [] && items[0].Step?
    requires i + n <= |s|
    ensures r.Some? ==> i <= r.value.0 <= |s|
    decreases |items|, 0, n
  {
    if n < MinRep(items[0].rep) then None
    else
      match MatchFrom(items[1..], s, i + n, g)
      case Some(res) => Some(res)
      case None => if n == 0 then None else TryCounts(items, s, i, g, n - 1)
  }

  /** `re.search`, from position `i` on. */
  function SearchFrom(p: Pattern, s: string, i: nat): Option<Hit>
    requires i <= |s|
    decreases |s| - i
  {
    match MatchFrom(p.items, s, i, Span(i, i))
    case Some(res) => Some(Hit(i, res.0, res.1))
    case None => if p.anchored || i == |s| then None else SearchFrom(p, s, i + 1)
  }

  function Search(p: Pattern, s: string): Option<Hit> {
    SearchFrom(p, s, 0)
  }

  /** `m.group(1)`. */
  function Group(s: string, h: Hit): string {
    if h.group.start <= h.group.end <= |s| then s[h.group.start..h.group.end] else []
  }

  /** `m.group(1)` of `re.search(p, s)`, when there is a match. */
  function FindGroup(p: Pattern, s: string): Option<string> {
    match Search(p, s)
    case Some(h) => Some(Group(s, h))
    case None => None
  }

  // ---------------------------------------------------------------------------
  // The reference description

  /** `items` can consume exactly `s[i..j]`, turning the group span `g` into `g'`
      (any number of repetitions allowed by each quantifier, in no preferred order). */
  ghost predicate Derives(items: seq<Item>, s: string, i: nat, j: nat, g: Span, g': Span)
    decreases |items|
  {
    i <= j <= |s| &&
    if items == [] then i == j && g' == g
    else
      match items[0]
      case Open => Derives(items[1..], s, i, j, Span(i, g.end), g')
      case Close => Derives(items[1..], s, i, j, Span(g.start, i), g')
      case Step(k, rep) =>
        exists m: nat :: i <= m <= j && Allows(rep, m - i) && AllIn(s[i..m], k) && Derives(items[1..], s, m, j, g, g')
  }

  /** Some match of `p` starts at `i`. */
  ghost predicate MatchesAt(p: Pattern, s: string, i: nat) {
    exists j: nat, g': Span :: Derives(p.items, s, i, j, Span(i, i), g')
  }

  /** Every class character before the end of a run may start a shorter run. */
  lemma {:induction false} RunBound(s: string, i: nat, m: nat, k: Class)
    requires i <= m <= |s|
    requires AllIn(s[i..m], k)
    ensures m - i <= Run(s, i, k)
    decreases m - i
  {
    if m > i {
      assert InClass(s[i..m][0], k);
      assert s[i + 1..m] == s[i..m][1..];
      RunBound(s, i + 1, m, k);
    }
  }

  lemma {:induction false} MatchSound(items: seq<Item>, s: string, i: nat, g: Span)
    requires i <= |s|
    ensures MatchFrom(items, s, i, g).Some? ==>
              Derives(items, s, i, MatchFrom(items, s, i, g).value.0, g, MatchFrom(items, s, i, g).value.1)
    decreases |items|, 1, 0
  {
    if items != [] {
      match items[0]
      case Open => MatchSound(items[1..], s, i, Span(i, g.end));
      case Close => MatchSound(items[1..], s, i, Span(g.start, i));
      case Step(k, rep) => TryCountsSound(items, s, i, g, MaxRep(rep, Run(s, i, k)));
    }
  }

  lemma {:induction false} TryCountsSound(items: seq<Item>, s: string, i: nat, g: Span, n: nat)
    requires items != [] && items[0].Step?
    requires i <= |s| && n <= MaxRep(items[0].rep, Run(s, i, items[0].cls))
    ensures i + n <= |s|
    ensures TryCounts(items, s, i, g, n).Some? ==>
              Derives(items, s, i, TryCounts(items, s, i, g, n).value.0, g, TryCounts(items, s, i, g, n).value.1)
    decreases |items|, 0, n
  {
    var k, rep := items[0].cls, items[0].rep;
    var run := Run(s, i, k);
    assert i + n <= |s|;
    if n >= MinRep(rep) {
      MatchSound(items[1..], s, i + n, g);
      match MatchFrom(items[1..], s, i + n, g)
      case Some(res) =>
        assert s[i..i + n] == s[i..i + run][..n];
        assert AllIn(s[i..i + n], k);
        assert Allows(rep, n);
        assert Derives(items[1..], s, i + n, res.0, g, res.1);
      case None =>
        if n > 0 {
          TryCountsSound(items, s, i, g, n - 1);
        }
    }
  }

  lemma {:induction false} MatchComplete(items: seq<Item>, s: string, i: nat, j: nat, g: Span, g': Span)
    requires Derives(items, s, i, j, g, g')
    ensures MatchFrom(items, s, i, g).Some?
    decreases |items|
  {
    if items != [] {
      match items[0]
      case Open => MatchComplete(items[1..], s, i, j, Span(i, g.end), g');
      case Close => MatchComplete(items[1..], s, i, j, Span(g.start, i), g');
      case Step(k, rep) =>
        var m: nat :| i <= m <= j && Allows(rep, m - i) && AllIn(s[i..m], k) && Derives(items[1..], s, m, j, g, g');
        RunBound(s, i, m, k);
        MatchComplete(items[1..], s, m, j, g, g');
        TryCountsComplete(items, s, i, g, MaxRep(rep, Run(s, i, k)), m - i);
    }
  }

  /** If `c` repetitions lead to a match, trying from `n >= c` downwards finds one. */
  lemma {:induction false} TryCountsComplete(items: seq<Item>, s: string, i: nat, g: Span, n: nat, c: nat)
    requires items != [] && items[0].Step?
    requires i + n <= |s|
    requires MinRep(items[0].rep) <= c <= n
    requires MatchFrom(items[1..], s, i + c, g).Some?
    ensures TryCounts(items, s, i, g, n).Some?
    decreases n
  {
    if n > c && MatchFrom(items[1..], s, i + n, g).None? {
      TryCountsComplete(items, s, i, g, n - 1, c);
    }
  }

  /** `re.search` semantics: the hit is a match, and no match starts further left.
      Without a hit, no admissible start position has a match. */
  lemma {:induction false} SearchFromLeftmost(p: Pattern, s: string, i: nat)
    requires i <= |s|
    requires p.anchored ==> i == 0
    ensures SearchFrom(p, s, i).Some? ==>
              var h := SearchFrom(p, s, i).value;
              i <= h.start &&
              Derives(p.items, s, h.start, h.end, Span(h.start, h.start), h.group) &&
              forall t: nat :: i <= t < h.start ==> !MatchesAt(p, s, t)
    ensures SearchFrom(p, s, i).None? ==>
              forall t: nat :: i <= t <= |s| && (p.anchored ==> t == 0) ==> !MatchesAt(p, s, t)
    decreases |s| - i
  {
    MatchSound(p.items, s, i, Span(i, i));
    if MatchFrom(p.items, s, i, Span(i, i)).None? {
      if MatchesAt(p, s, i) {
        var j: nat, g': Span :| Derives(p.items, s, i, j, Span(i, i), g');
        MatchComplete(p.items, s, i, j, Span(i, i), g');
      }
      if !p.anchored && i < |s| {
        SearchFromLeftmost(p, s, i + 1);
      }
    }
  }

  lemma SearchLeftmost(p: Pattern, s: string)
    ensures Search(p, s).Some? ==>
              var h := Search(p, s).value;
              Derives(p.items, s, h.start, h.end, Span(h.start, h.start), h.group) &&
              (p.anchored ==> h.start == 0) &&
              forall t: nat :: t < h.start ==> !MatchesAt(p, s, t)
    ensures Search(p, s).None? ==>
              forall t: nat :: t <= |s| && (p.anchored ==> t == 0) ==> !MatchesAt(p, s, t)
  {
    SearchFromLeftmost(p, s, 0);
  }

  // ---------------------------------------------------------------------------
  // A closed form for the one-class patterns `(C+)`

  /** The first maximal run of class `k` at or after `i`. */
  function FirstRunFrom(s: string, i: nat, k: Class): (r: Option<Span>)
    requires i <= |s|
    ensures r.Some? ==> i <= r.value.start < r.value.end <= |s| && AllIn(s[r.value.start..r.value.end], k)
    ensures r.Some? ==> (r.value.end < |s| ==> !InClass(s[r.value.end], k))
    ensures r.Some? ==> forall t :: i <= t < r.value.start ==> !InClass(s[t], k)
    ensures r.None? ==> forall t :: i <= t < |s| ==> !InClass(s[t], k)
    decreases |s| - i
  {
    if i == |s| then None
    else if InClass(s[i], k) then Some(Span(i, i + Run(s, i, k)))
    else FirstRunFrom(s, i + 1, k)
  }

  function RunPattern(k: Class): Pattern {
    Pattern(false, [Open, Step(k, Plus), Close])
  }

  /** `re.search('(C+)', s)` finds the first maximal run of `C`, and its group is that run. */
  lemma {:induction false} RunPatternSearch(s: string, i: nat, k: Class)
    requires i <= |s|
    ensures SearchFrom(RunPattern(k), s, i) ==
              match FirstRunFrom(s, i, k)
              case Some(sp) => Some(Hit(sp.start, sp.end, sp))
              case None => None
    decreases |s| - i
  {
    var items := RunPattern(k).items;
    var n := Run(s, i, k);
    assert items[1..][1..] == [Close];
    assert MatchFrom(items[1..][1..], s, i + n, Span(i, i)) == Some((i + n, Span(i, i + n)));
    assert MatchFrom(items[1..], s, i, Span(i, i)) == TryCounts(items[1..], s, i, Span(i, i), n);
    assert MatchFrom(items, s, i, Span(i, i)) == MatchFrom(items[1..], s, i, Span(i, i));
    if i < |s| && InClass(s[i], k) {
      assert TryCounts(items[1..], s, i, Span(i, i), n) == Some((i + n, Span(i, i + n)));
    } else {
      assert n == 0;
      assert TryCounts(items[1..], s, i, Span(i, i), n) == None;
      if i < |s| {
        RunPatternSearch(s, i + 1, k);
      }
    }
  }

  /** The group of `re.search('(C+)', s)`: the first maximal run of `C`, if any. */
  lemma RunPatternGroup(s: string, k: Class)
    ensures FindGroup(RunPattern(k), s) ==
              match FirstRunFrom(s, 0, k)
              case Some(sp) => Some(s[sp.start..sp.end])
              case None => None
  {
    RunPatternSearch(s, 0, k);
  }
}
