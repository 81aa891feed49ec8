/** The field extraction of `crawl_instagram_profile`
    (src/instagram_crawler.py:329-513): the profile image, the display name,
    the post and follower counts and the bio, each read from the page snapshot
    by an ordered chain of patterns. Each field sits in its own `try` in the
    source, so every field here is a function of the snapshot alone. */
module ProfileExtract {
  import opened Wrappers
  import opened Text
  import opened Regex
  import opened Patterns
  import opened Units
  import opened Page

  /** The `profile_data` dictionary. */
  datatype ProfileData = ProfileData(imageUrl: string, name: string, posts: nat, followers: nat, bio: string)

  /** `profile_data` before any field is read. */
  const EmptyProfile: ProfileData := ProfileData([], [], 0, 0, [])

  /** `re.search(p, s).group(1).strip()`, or "" when there is no match. */
  function Captured(p: Pattern, s: string): (r: string)
    ensures IsStripped(r)
    ensures FindGroup(p, s).Some? ==> r == Strip(FindGroup(p, s).value)
    ensures FindGroup(p, s).None? ==> r == []
  {
    match FindGroup(p, s)
    case Some(g) => Strip(g)
    case None => []
  }

  // ---------------------------------------------------------------------------
  // Name (src/instagram_crawler.py:349-406)

  /** The name the `<title>` gives: `^([^(]+)\s*\(@[^)]+\)`. */
  function TitleCandidate(title: Option<string>): string {
    if Present(title) then Captured(TitleName, title.value) else []
  }

  /** The og:description name patterns, in the order tried. */
  const OgNamePatterns: seq<Pattern> := [OgNamePosts, OgNameFrom, OgNameSuffix]

  /** What each pattern captures from `s`, stripped, in the patterns' order. */
  function CapturedEach(pats: seq<Pattern>, s: string): (c: seq<string>)
    ensures |c| == |pats|
    ensures forall j :: 0 <= j < |pats| ==> c[j] == Captured(pats[j], s)
  {
    if pats == [] then []
    else
      var rest := CapturedEach(pats[1..], s);
      assert forall j :: 1 <= j < |pats| ==> pats[1..][j - 1] == pats[j];
      [Captured(pats[0], s)] + rest
  }

  /** The names the og:description patterns give, in the order tried. */
  function OgNameCandidates(og: Option<string>): seq<string> {
    if Present(og) then CapturedEach(OgNamePatterns, og.value) else [[], [], []]
  }

  function NameCandidates(p: Snapshot): seq<string> {
    [TitleCandidate(p.title)] + OgNameCandidates(p.ogDescription)
  }

  /** The position of the first non-empty string, or `|cands|` if there is none. */
  function FirstNonEmptyIndex(cands: seq<string>): (i: nat)
    ensures i <= |cands|
    ensures forall j :: 0 <= j < i ==> cands[j] == []
    ensures i < |cands| ==> cands[i] != []
  {
    if cands == [] then 0
    else if cands[0] != [] then 0
    else 1 + FirstNonEmptyIndex(cands[1..])
  }

  /** The first non-empty candidate, or "". */
  function FirstNonEmpty(cands: seq<string>): string {
    var i := FirstNonEmptyIndex(cands);
    if i < |cands| then cands[i] else []
  }

  /** `profile_data['influencer_name']`: the title's name if there is one, and
      otherwise the first og:description pattern that yields a name. */
  function NameOf(p: Snapshot): (r: string)
    ensures IsStripped(r)
    ensures r == [] <==> forall k :: 0 <= k < |NameCandidates(p)| ==> NameCandidates(p)[k] == []
    ensures TitleCandidate(p.title) != [] ==> r == TitleCandidate(p.title)
    ensures r != [] ==> r in NameCandidates(p)
  {
    var c := NameCandidates(p);
    assert forall k :: 0 <= k < |c| ==> IsStripped(c[k]);
    FirstNonEmptyMeaning(c);
    FirstNonEmpty(c)
  }

  /** `FirstNonEmpty` is empty only when every candidate is, is otherwise one of
      them, starts with the first when that one is non-empty, and is stripped
      when all candidates are. */
  lemma FirstNonEmptyMeaning(c: seq<string>)
    ensures FirstNonEmpty(c) == [] <==> forall k :: 0 <= k < |c| ==> c[k] == []
    ensures |c| > 0 && c[0] != [] ==> FirstNonEmpty(c) == c[0]
    ensures FirstNonEmpty(c) != [] ==> FirstNonEmpty(c) in c
    ensures (forall k :: 0 <= k < |c| ==> IsStripped(c[k])) ==> IsStripped(FirstNonEmpty(c))
  {
  }

  // ---------------------------------------------------------------------------
  // Post and follower counts (src/instagram_crawler.py:409-460)

  /** The count token: the English pattern's group, or, only when the English
      pattern does not match, the Korean pattern's group. */
  function CountToken(og: Option<string>, en: Pattern, ko: Pattern): (r: Option<string>)
    ensures !Present(og) ==> r.None?
    ensures Present(og) && FindGroup(en, og.value).Some? ==> r == FindGroup(en, og.value)
    ensures Present(og) && FindGroup(en, og.value).None? ==> r == FindGroup(ko, og.value)
  {
    if !Present(og) then None
    else match FindGroup(en, og.value)
      case Some(g) => Some(g)
      case None => FindGroup(ko, og.value)
  }

  /** The count a field's `try` leaves: the token's `extract_numbers` value,
      and 0 when there is no token or `extract_numbers` raises. */
  function CountFrom(og: Option<string>, en: Pattern, ko: Pattern): (r: nat)
    ensures r > 0 ==> CountToken(og, en, ko).Some? && ExtractNumbers(CountToken(og, en, ko).value) == Ok(r)
    ensures CountToken(og, en, ko).Some? && ExtractNumbers(CountToken(og, en, ko).value).Ok? ==>
              r == ExtractNumbers(CountToken(og, en, ko).value).value
    ensures CountToken(og, en, ko).None? ==> r == 0
    ensures CountToken(og, en, ko).Some? && ExtractNumbers(CountToken(og, en, ko).value).Err? ==> r == 0
  {
    match CountToken(og, en, ko)
    case None => 0
    case Some(tok) =>
      match ExtractNumbers(tok)
      case Ok(n) => n
      case Err(_) => 0
  }

  function PostsOf(p: Snapshot): nat {
    CountFrom(p.ogDescription, PostsEn, PostsKo)
  }

  function FollowersOf(p: Snapshot): nat {
    CountFrom(p.ogDescription, FollowersEn, FollowersKo)
  }

  // ---------------------------------------------------------------------------
  // Bio (src/instagram_crawler.py:463-513)

  /** A JSON-LD block that ends the scan: an object whose `description` is a string. */
  predicate EndsScan(b: LdScript) {
    b.LdObject? && b.description.Some? && b.description.value.LdString?
  }

  /** The position of the first block that ends the scan, or `|scripts|`. */
  function FirstLdIndex(scripts: seq<LdScript>): (i: nat)
    ensures i <= |scripts|
    ensures forall j :: 0 <= j < i ==> !EndsScan(scripts[j])
    ensures i < |scripts| ==> EndsScan(scripts[i])
  {
    if scripts == [] then 0
    else if EndsScan(scripts[0]) then 0
    else 1 + FirstLdIndex(scripts[1..])
  }

  /** The stripped `description` of the first JSON-LD object that has a string
      one; unparseable blocks, non-objects, objects without the key and
      non-string descriptions (whose `.strip()` raises) are skipped. */
  function LdDescription(scripts: seq<LdScript>): (r: Option<string>)
    ensures r.None? <==> forall k :: 0 <= k < |scripts| ==> !EndsScan(scripts[k])
    ensures r.Some? ==> IsStripped(r.value)
    ensures forall k :: 0 <= k < |scripts| && EndsScan(scripts[k]) && (forall j :: 0 <= j < k ==> !EndsScan(scripts[j])) ==>
              r == Some(Strip(scripts[k].description.value.text))
  {
    var i := FirstLdIndex(scripts);
    if i < |scripts| then Some(Strip(scripts[i].description.value.text)) else None
  }

  /** The JSON-LD loop with its `break` and `continue`s. */
  method ScanLdScripts(scripts: seq<LdScript>) returns (d: Option<string>)
    ensures d == LdDescription(scripts)
  {
    d := None;
    var i := 0;
    while i < |scripts|
      invariant 0 <= i <= |scripts|
      invariant forall j :: 0 <= j < i ==> !EndsScan(scripts[j])
      invariant d == None
    {
      match scripts[i]
      case Unparseable =>
        i := i + 1;
      case NotAnObject =>
        i := i + 1;
      case LdObject(desc) =>
        if desc.Some? && desc.value.LdString? {
          d := Some(Strip(desc.value.text));
          FirstLdAt(scripts, i);
          return;
        }
        i := i + 1;
    }
    FirstLdNone(scripts);
  }

  lemma {:induction false} FirstLdAt(scripts: seq<LdScript>, i: nat)
    requires i < |scripts| && EndsScan(scripts[i])
    requires forall j :: 0 <= j < i ==> !EndsScan(scripts[j])
    ensures FirstLdIndex(scripts) == i
  {
    if i > 0 {
      assert !EndsScan(scripts[0]);
      FirstLdAt(scripts[1..], i - 1);
    }
  }

  lemma FirstLdNone(scripts: seq<LdScript>)
    requires forall j :: 0 <= j < |scripts| ==> !EndsScan(scripts[j])
    ensures FirstLdIndex(scripts) == |scripts|
  {
  }

  /** The meta description fallback: the text inside `&quot;…&quot;`, else
      inside `: "…"`, else the whole content, stripped in every case. */
  function MetaBio(meta: Option<string>): (r: string)
    ensures IsStripped(r)
    ensures !Present(meta) ==> r == []
    ensures Present(meta) && FindGroup(BioEntityQuoted, meta.value).Some? ==> r == Strip(FindGroup(BioEntityQuoted, meta.value).value)
    ensures Present(meta) && FindGroup(BioEntityQuoted, meta.value).None? && FindGroup(BioQuoted, meta.value).Some? ==>
              r == Strip(FindGroup(BioQuoted, meta.value).value)
    ensures Present(meta) && FindGroup(BioEntityQuoted, meta.value).None? && FindGroup(BioQuoted, meta.value).None? ==>
              r == Strip(meta.value)
  {
    if !Present(meta) then []
    else
      match FindGroup(BioEntityQuoted, meta.value)
      case Some(g) => Strip(g)
      case None =>
        match FindGroup(BioQuoted, meta.value)
        case Some(g) => Strip(g)
        case None => Strip(meta.value)
  }

  /** `profile_data['profile_text']`: a non-empty JSON-LD description wins;
      otherwise the meta description fallback. */
  function BioOf(p: Snapshot): (r: string)
    ensures IsStripped(r)
    ensures LdDescription(p.ldScripts).Some? && LdDescription(p.ldScripts).value != [] ==> r == LdDescription(p.ldScripts).value
    ensures LdDescription(p.ldScripts).None? || LdDescription(p.ldScripts).value == [] ==> r == MetaBio(p.metaDescription)
  {
    match LdDescription(p.ldScripts)
    case Some(d) => if d != [] then d else MetaBio(p.metaDescription)
    case None => MetaBio(p.metaDescription)
  }

  // ---------------------------------------------------------------------------
  // Image (src/instagram_crawler.py:339-346) and the whole record

  function ImageOf(p: Snapshot): string {
    p.ogImage.GetOr([])
  }

  function ProfileOf(p: Snapshot): ProfileData {
    ProfileData(ImageOf(p), NameOf(p), PostsOf(p), FollowersOf(p), BioOf(p))
  }

  /** The extraction block as the source runs it: `profile_data` starts empty
      and each field's step overwrites only its own entry. */
  method ExtractProfile(p: Snapshot) returns (data: ProfileData)
    ensures data == ProfileOf(p)
    ensures IsStripped(data.name) && IsStripped(data.bio)
  {
    data := EmptyProfile;
    if p.ogImage.Some? {
      data := data.(imageUrl := p.ogImage.value);
    }
    var name := ExtractName(p);
    data := data.(name := name);
    data := data.(posts := PostsOf(p));
    data := data.(followers := FollowersOf(p));
    var bio := ExtractBio(p);
    data := data.(bio := bio);
  }

  /** Step 2: the title first, then the og:description patterns while the name is still empty. */
  method ExtractName(p: Snapshot) returns (name: string)
    ensures name == NameOf(p)
  {
    name := [];
    if Present(p.title) {
      name := Capture(TitleName, p.title.value);
    }
    if name == [] && Present(p.ogDescription) {
      name := OgName(OgNamePosts, OgNameFrom, OgNameSuffix, p.ogDescription.value);
    }
    NameSteps(p);
  }

  /** `name_match = re.search(p, s)`, then `name_match.group(1).strip()` if it matched. */
  method Capture(p: Pattern, s: string) returns (r: string)
    ensures r == Captured(p, s)
  {
    r := [];
    var m := FindGroup(p, s);
    if m.Some? {
      r := Strip(m.value);
    }
  }

  /** Three og:description patterns, each tried only while the name is still empty. */
  method OgName(first: Pattern, second: Pattern, third: Pattern, s: string) returns (name: string)
    ensures name == FirstNonEmpty(CapturedEach([first, second, third], s))
  {
    name := Capture(first, s);
    if name == [] {
      name := Capture(second, s);
    }
    if name == [] {
      name := Capture(third, s);
    }
    OgNameChain(first, second, third, s);
  }

  /** The first non-empty of three captures, as the chain of `if`s computes it. */
  lemma OgNameChain(first: Pattern, second: Pattern, third: Pattern, s: string)
    ensures FirstNonEmpty(CapturedEach([first, second, third], s)) ==
              if Captured(first, s) != [] then Captured(first, s)
              else if Captured(second, s) != [] then Captured(second, s)
              else Captured(third, s)
  {
    CapturedThree(first, second, third, s);
    FirstOfThree(Captured(first, s), Captured(second, s), Captured(third, s));
  }

  lemma FirstOfThree(a: string, b: string, c: string)
    ensures FirstNonEmpty([a, b, c]) == if a != [] then a else if b != [] then b else c
  {
    assert [a, b, c] == [a] + [b, c] && [b, c] == [b] + [c] && [c] == [c] + [];
    FirstNonEmptyCons(a, [b, c]);
    FirstNonEmptyCons(b, [c]);
    FirstNonEmptyCons(c, []);
  }

  /** `CapturedEach` on three patterns, written out. */
  lemma CapturedThree(first: Pattern, second: Pattern, third: Pattern, s: string)
    ensures CapturedEach([first, second, third], s) == [Captured(first, s), Captured(second, s), Captured(third, s)]
  {
    var c := CapturedEach([first, second, third], s);
    assert c[0] == Captured(first, s) && c[1] == Captured(second, s) && c[2] == Captured(third, s);
  }

  /** The name chain as two steps: the title, then the og:description patterns. */
  lemma NameSteps(p: Snapshot)
    ensures NameOf(p) ==
              if TitleCandidate(p.title) != [] then TitleCandidate(p.title)
              else if Present(p.ogDescription) then FirstNonEmpty(CapturedEach(OgNamePatterns, p.ogDescription.value))
              else []
  {
    var og := OgNameCandidates(p.ogDescription);
    FirstNonEmptyCons(TitleCandidate(p.title), og);
    FirstNonEmptyMeaning(og);
  }

  /** The first non-empty of `[t] + og` is `t` unless `t` is empty, and then the first of `og`. */
  lemma FirstNonEmptyCons(t: string, og: seq<string>)
    ensures FirstNonEmpty([t] + og) == if t != [] then t else FirstNonEmpty(og)
  {
    var c := [t] + og;
    assert c[1..] == og;
    if t == [] && FirstNonEmptyIndex(og) < |og| {
      FirstNonEmptyAt(c, FirstNonEmptyIndex(og) + 1);
    }
  }

  /** Step 5: JSON-LD first, then the meta description while the bio is still empty. */
  method ExtractBio(p: Snapshot) returns (bio: string)
    ensures bio == BioOf(p)
  {
    bio := [];
    var ld := ScanLdScripts(p.ldScripts);
    if ld.Some? {
      bio := ld.value;
    }
    if bio == [] {
      bio := MetaBio(p.metaDescription);
    }
  }

  lemma {:induction false} FirstNonEmptyAt(c: seq<string>, i: nat)
    requires i < |c| && c[i] != []
    requires forall j :: 0 <= j < i ==> c[j] == []
    ensures FirstNonEmptyIndex(c) == i
  {
    if i > 0 {
      FirstNonEmptyAt(c[1..], i - 1);
    }
  }
}
