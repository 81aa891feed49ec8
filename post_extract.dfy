/** The likes and comments extraction of `crawl_instagram_post`
    (src/instagram_crawler.py:679-779): a pass over the meta description, then,
    only for a count that is still 0, a pass over the elements a list of XPath
    expressions selects. */
module PostExtract {
  import opened Wrappers
  import opened Text
  import opened Regex
  import opened Patterns
  import opened Units
  import opened Page

  datatype Counts = Counts(likes: nat, comments: nat)

  // ---------------------------------------------------------------------------
  // The meta description pass (src/instagram_crawler.py:682-701)

  /** `int(m.group(1))` for `m = re.search(p, content)`: `Some(0)` without a
      match (the count keeps its initial 0), `None` where `int` raises. */
  function MetaCount(p: Pattern, content: string): (r: Option<nat>)
    ensures FindGroup(p, content).None? ==> r == Some(0)
    ensures FindGroup(p, content).Some? ==> r == ParseInt(FindGroup(p, content).value)
  {
    match FindGroup(p, content)
    case None => Some(0)
    case Some(g) => ParseInt(g)
  }

  /** Likes first, then comments, inside one `try` whose `except` keeps
      whatever was assigned before the failure. */
  function MetaCounts(meta: Option<string>): (r: Counts)
    ensures !Present(meta) ==> r == Counts(0, 0)
    ensures Present(meta) && MetaCount(MetaLikes, meta.value).None? ==> r == Counts(0, 0)
    ensures Present(meta) && MetaCount(MetaLikes, meta.value).Some? ==>
              r.likes == MetaCount(MetaLikes, meta.value).value &&
              r.comments == MetaCount(MetaComments, meta.value).GetOr(0)
  {
    if !Present(meta) then Counts(0, 0)
    else
      match MetaCount(MetaLikes, meta.value)
      case None => Counts(0, 0)
      case Some(likes) =>
        match MetaCount(MetaComments, meta.value)
        case None => Counts(likes, 0)
        case Some(comments) => Counts(likes, comments)
  }

  // ---------------------------------------------------------------------------
  // The DOM pass (src/instagram_crawler.py:704-779)

  /** The regex step of each DOM loop: `([\d,]+)\s*likes?` for likes;
      `View all (\d+)` and `(\d+)\s*comments?` for comments. */
  datatype Rule = LikeRule(count: Pattern) | CommentRule(viewAll: Pattern, count: Pattern)

  const Likes: Rule := LikeRule(DomLikes)
  const Comments: Rule := CommentRule(ViewAll, MetaComments)

  const LikeXPaths: seq<string> := [
    "//span[contains(text(), 'likes')]",
    "//span[contains(text(), '좋아요')]",
    "//article//span[contains(text(), 'likes')]",
    "//main//span[contains(text(), 'likes')]"
  ]

  const CommentXPaths: seq<string> := [
    "//span[contains(text(), 'View all') and contains(text(), 'comments')]",
    "//span[contains(text(), 'comments')]",
    "//article//span[contains(text(), 'comments')]",
    "//main//span[contains(text(), 'comments')]"
  ]

  function XPaths(rule: Rule): seq<string> {
    match rule
    case LikeRule(_) => LikeXPaths
    case CommentRule(_, _) => CommentXPaths
  }

  /** What one element does to the element loop: nothing (`Skip`), a `break`
      with a value (`Stop`), or an exception that abandons the XPath (`Raise`). */
  datatype Outcome = Skip | Stop(value: nat) | Raise

  /** The outcome of a number a regex step hands on. */
  function Settle(r: Result<nat, NumberError>): Outcome {
    match r
    case Ok(n) => Stop(n)
    case Err(_) => Raise
  }

  function IntOutcome(g: string): Outcome {
    match ParseInt(g)
    case Some(n) => Stop(n)
    case None => Raise
  }

  /** The body of the element loop for one element's raw text. */
  function ElementOutcome(rule: Rule, raw: string): Outcome {
    var text := Strip(raw);
    match rule
    case LikeRule(count) =>
      if Contains(Lower(text), "likes") || Contains(text, "좋아요") then
        match FindGroup(count, text)
        case Some(g) => Settle(ExtractNumbers(g))
        case None => Skip
      else Skip
    case CommentRule(viewAll, count) =>
      if Contains(Lower(text), "comments") || Contains(text, "댓글") then
        match FindGroup(if Contains(Lower(text), "view all") then viewAll else count, text)
        case Some(g) => IntOutcome(g)
        case None => Skip
      else Skip
  }

  /** The element loop body of one DOM loop, as a function of the element's text. */
  function Step(rule: Rule): string -> Outcome {
    raw => ElementOutcome(rule, raw)
  }

  /** What each element of an XPath's result does, in document order. */
  function Outcomes(step: string -> Outcome, texts: seq<string>): seq<Outcome> {
    seq(|texts|, j requires 0 <= j < |texts| => step(texts[j]))
  }

  /** The position of the first outcome that is not `Skip`, or `|outs|`. */
  function FirstDecisive(outs: seq<Outcome>): (i: nat)
    ensures i <= |outs|
    ensures forall j :: 0 <= j < i ==> outs[j] == Skip
    ensures i < |outs| ==> outs[i] != Skip
  {
    if outs == [] then 0
    else if outs[0] != Skip then 0
    else 1 + FirstDecisive(outs[1..])
  }

  /** The count an element loop leaves: the value of the first element that
      stops it, and 0 if that element raises or no element stops it. */
  function LoopCount(outs: seq<Outcome>): (r: nat)
    ensures r > 0 ==> exists k :: 0 <= k < |outs| && outs[k] == Stop(r) && forall j :: 0 <= j < k ==> outs[j] == Skip
    ensures (forall k :: 0 <= k < |outs| ==> outs[k] == Skip) ==> r == 0
    ensures forall k :: 0 <= k < |outs| && outs[k].Stop? && (forall j :: 0 <= j < k ==> outs[j] == Skip) ==> r == outs[k].value
    ensures forall k :: 0 <= k < |outs| && outs[k].Raise? && (forall j :: 0 <= j < k ==> outs[j] == Skip) ==> r == 0
  {
    var i := FirstDecisive(outs);
    if i < |outs| && outs[i].Stop? then outs[i].value else 0
  }

  /** The counts each XPath of a list would give, in list order. */
  function XPathCounts(step: string -> Outcome, p: Snapshot, xpaths: seq<string>): seq<nat> {
    seq(|xpaths|, k requires 0 <= k < |xpaths| => LoopCount(Outcomes(step, Elements(p, xpaths[k]))))
  }

  /** The position of the first positive entry, or `|xs|`. */
  function FirstPositive(xs: seq<nat>): (i: nat)
    ensures i <= |xs|
    ensures forall j :: 0 <= j < i ==> xs[j] == 0
    ensures i < |xs| ==> xs[i] > 0
  {
    if xs == [] then 0
    else if xs[0] > 0 then 0
    else 1 + FirstPositive(xs[1..])
  }

  /** The first positive entry, or 0 when there is none. */
  function PickFirst(xs: seq<nat>): (r: nat)
    ensures r > 0 <==> exists k :: 0 <= k < |xs| && xs[k] > 0
    ensures r > 0 ==> r in xs
    ensures forall k :: 0 <= k < |xs| && xs[k] > 0 && (forall j :: 0 <= j < k ==> xs[j] == 0) ==> r == xs[k]
  {
    var i := FirstPositive(xs);
    if i < |xs| then xs[i] else 0
  }

  /** The DOM pass for one count: the first XPath that gives a positive count
      decides, and the count stays 0 when none does. */
  function DomCount(rule: Rule, p: Snapshot): nat {
    PickFirst(XPathCounts(Step(rule), p, XPaths(rule)))
  }

  /** `likes` and `comments` as `crawl_instagram_post` returns them: the meta
      pass reads the page as loaded, the DOM pass the page after the refresh
      that precedes it. */
  function PostCounts(p: Snapshot, dom: Snapshot): Counts {
    var m := MetaCounts(p.metaDescription);
    Counts(if m.likes == 0 then DomCount(Likes, dom) else m.likes,
           if m.comments == 0 then DomCount(Comments, dom) else m.comments)
  }

  /** The DOM pass only fills in a count the meta pass left at 0; when the meta
      pass finds both, the refreshed page is not consulted at all. */
  lemma MetaFirst(p: Snapshot, dom: Snapshot)
    ensures MetaCounts(p.metaDescription).likes > 0 ==> PostCounts(p, dom).likes == MetaCounts(p.metaDescription).likes
    ensures MetaCounts(p.metaDescription).comments > 0 ==> PostCounts(p, dom).comments == MetaCounts(p.metaDescription).comments
    ensures MetaCounts(p.metaDescription).likes == 0 ==> PostCounts(p, dom).likes == DomCount(Likes, dom)
    ensures MetaCounts(p.metaDescription).comments == 0 ==> PostCounts(p, dom).comments == DomCount(Comments, dom)
    ensures forall q: Snapshot, dom': Snapshot ::
              (q.metaDescription == p.metaDescription &&
               MetaCounts(p.metaDescription).likes > 0 && MetaCounts(p.metaDescription).comments > 0) ==>
              PostCounts(q, dom') == PostCounts(p, dom)
  {
  }

  // ---------------------------------------------------------------------------
  // The loops as the source runs them

  /** `for element in elements: ...` with its `break` and the `except: continue`. */
  method ScanElements(step: string -> Outcome, texts: seq<string>) returns (count: nat)
    ensures count == LoopCount(Outcomes(step, texts))
  {
    ghost var outs := Outcomes(step, texts);
    count := 0;
    var i := 0;
    while i < |texts|
      invariant 0 <= i <= |texts|
      invariant forall j :: 0 <= j < i ==> outs[j] == Skip
    {
      var o := step(texts[i]);
      assert o == outs[i];
      if o.Stop? {
        FirstDecisiveAt(outs, i);
        return o.value;
      } else if o.Raise? {
        FirstDecisiveAt(outs, i);
        return 0;
      }
      i := i + 1;
    }
    FirstDecisiveNone(outs);
  }

  /** `for pattern in patterns: ... if count > 0: break`. */
  method ScanXPaths(step: string -> Outcome, p: Snapshot, xpaths: seq<string>) returns (count: nat)
    ensures count == PickFirst(XPathCounts(step, p, xpaths))
  {
    ghost var xs := XPathCounts(step, p, xpaths);
    count := 0;
    var k := 0;
    while k < |xpaths|
      invariant 0 <= k <= |xpaths|
      invariant forall j :: 0 <= j < k ==> xs[j] == 0
    {
      count := ScanElements(step, Elements(p, xpaths[k]));
      assert count == xs[k];
      if count > 0 {
        FirstPositiveAt(xs, k);
        return;
      }
      ZeroPrefixGrows(xs, k);
      k := k + 1;
    }
    FirstPositiveNone(xs);
  }

  lemma ZeroPrefixGrows(xs: seq<nat>, k: nat)
    requires k < |xs| && xs[k] == 0
    requires forall j :: 0 <= j < k ==> xs[j] == 0
    ensures forall j :: 0 <= j < k + 1 ==> xs[j] == 0
  {
  }

  /** One DOM loop, with the XPath list and the element step of its count. */
  method DomScan(rule: Rule, p: Snapshot) returns (count: nat)
    ensures count == DomCount(rule, p)
  {
    count := ScanXPaths(Step(rule), p, XPaths(rule));
  }

  /** The extraction as a whole: the meta pass, then the DOM pass for each count still at 0. */
  method ExtractPost(p: Snapshot, dom: Snapshot) returns (c: Counts)
    ensures c == PostCounts(p, dom)
    ensures MetaCounts(p.metaDescription).likes > 0 ==> c.likes == MetaCounts(p.metaDescription).likes
    ensures MetaCounts(p.metaDescription).comments > 0 ==> c.comments == MetaCounts(p.metaDescription).comments
  {
    c := MetaCounts(p.metaDescription);
    if c.likes == 0 || c.comments == 0 {
      if c.likes == 0 {
        var likes := DomScan(Likes, dom);
        c := c.(likes := likes);
      }
      if c.comments == 0 {
        var comments := DomScan(Comments, dom);
        c := c.(comments := comments);
      }
    }
  }

  lemma {:induction false} FirstDecisiveAt(outs: seq<Outcome>, i: nat)
    requires i < |outs| && outs[i] != Skip
    requires forall j :: 0 <= j < i ==> outs[j] == Skip
    ensures FirstDecisive(outs) == i
  {
    if i > 0 {
      FirstDecisiveAt(outs[1..], i - 1);
    }
  }

  lemma FirstDecisiveNone(outs: seq<Outcome>)
    requires forall j :: 0 <= j < |outs| ==> outs[j] == Skip
    ensures FirstDecisive(outs) == |outs|
  {
  }

  lemma {:induction false} FirstPositiveAt(xs: seq<nat>, i: nat)
    requires i < |xs| && xs[i] > 0
    requires forall j :: 0 <= j < i ==> xs[j] == 0
    ensures FirstPositive(xs) == i
  {
    if i > 0 {
      FirstPositiveAt(xs[1..], i - 1);
    }
  }

  lemma FirstPositiveNone(xs: seq<nat>)
    requires forall j :: 0 <= j < |xs| ==> xs[j] == 0
    ensures FirstPositive(xs) == |xs|
  {
  }
}
