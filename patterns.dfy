/** The regular expressions of src/instagram_crawler.py, written as `Regex`
    patterns. Each has exactly one capturing group; for the two `findall`
    patterns without a group (`[\d.]+`, `\d+`) the group is the whole match,
    which is what `findall` returns for them. */
module Patterns {
  import opened Regex
  import Text

  const DigitChars: set<char> := Text.Digits
  const Digit: Class := AnyOf(DigitChars)
  const Space: Class := AnyOf(Text.Whitespace)

  /** ASCII case-insensitive form of one character (the `re.IGNORECASE` flag). */
  function Fold(c: char): set<char> {
    {Text.LowerChar(c), Text.UpperChar(c)}
  }

  /** A literal, matched exactly. */
  function Lit(w: string): seq<Item> {
    if w == [] then [] else [Step(AnyOf({w[0]}), Once)] + Lit(w[1..])
  }

  /** A literal under `re.IGNORECASE`. */
  function LitI(w: string): seq<Item> {
    if w == [] then [] else [Step(AnyOf(Fold(w[0])), Once)] + LitI(w[1..])
  }

  /** `\s*` and `\s+` */
  const Spaces: seq<Item> := [Step(Space, Star)]
  const Spaces1: seq<Item> := [Step(Space, Plus)]

  /** `\s*\(@[^)]+\)`: the "(@handle)" that follows a display name. */
  const AtHandle: seq<Item> :=
    Spaces + Lit("(@") + [Step(NoneOf({')'}), Plus)] + Lit(")")

  /** `([^(]+)` */
  const NameGroup: seq<Item> := [Open, Step(NoneOf({'('}), Plus), Close]

  // --- profile name (src/instagram_crawler.py:360, 382, 390, 398)

  /** `^([^(]+)\s*\(@[^)]+\)` on the page title. */
  const TitleName: Pattern := Pattern(true, NameGroup + AtHandle)

  /** `게시물\s+\d+개\s*-\s*([^(]+)\s*\(@[^)]+\)` */
  const OgNamePosts: Pattern :=
    Pattern(false, Lit("게시물") + Spaces1 + [Step(Digit, Plus)] + Lit("개") + Spaces + Lit("-") + Spaces
                   + NameGroup + AtHandle)

  /** `from\s+([^(]+)\s*\(@[^)]+\)`, case-insensitive. */
  const OgNameFrom: Pattern := Pattern(false, LitI("from") + Spaces1 + NameGroup + AtHandle)

  /** `([^(]+)\s*\(@[^)]+\)님의\s+Instagram` */
  const OgNameSuffix: Pattern :=
    Pattern(false, NameGroup + AtHandle + Lit("님의") + Spaces1 + Lit("Instagram"))

  // --- profile counts (src/instagram_crawler.py:416, 421, 441, 448)

  const CountTokenEn: Class := AnyOf(DigitChars + {'.', ',', 'K', 'M', 'B', 'k', 'm', 'b'})

  /** `([0-9.,KMB]+)\s+Posts?`, case-insensitive. */
  const PostsEn: Pattern :=
    Pattern(false, [Open, Step(CountTokenEn, Plus), Close] + Spaces1 + LitI("Post") + [Step(AnyOf(Fold('s')), Optional)])

  /** `게시물\s*([0-9.,천만]+)` */
  const PostsKo: Pattern :=
    Pattern(false, Lit("게시물") + Spaces + [Open, Step(AnyOf(DigitChars + {'.', ',', '천', '만'}), Plus), Close])

  /** `([0-9.,KMB]+)\s+Followers?`, case-insensitive. */
  const FollowersEn: Pattern :=
    Pattern(false, [Open, Step(CountTokenEn, Plus), Close] + Spaces1 + LitI("Follower") + [Step(AnyOf(Fold('s')), Optional)])

  /** `팔로워\s*([0-9.,천만KMB]+)` */
  const FollowersKo: Pattern :=
    Pattern(false, Lit("팔로워") + Spaces + [Open, Step(AnyOf(DigitChars + {'.', ',', '천', '만', 'K', 'M', 'B'}), Plus), Close])

  // --- bio (src/instagram_crawler.py:493, 500)

  /** `&quot;([^&]+)&quot;` */
  const BioEntityQuoted: Pattern :=
    Pattern(false, Lit("&quot;") + [Open, Step(NoneOf({'&'}), Plus), Close] + Lit("&quot;"))

  /** `:\s*"([^"]+)"` */
  const BioQuoted: Pattern :=
    Pattern(false, Lit(":") + Spaces + Lit("\"") + [Open, Step(NoneOf({'"'}), Plus), Close] + Lit("\""))

  // --- post counts (src/instagram_crawler.py:691, 696, 736, 765, 770)

  /** `(\d+)\s*likes?`, case-insensitive. */
  const MetaLikes: Pattern :=
    Pattern(false, [Open, Step(Digit, Plus), Close] + Spaces + LitI("like") + [Step(AnyOf(Fold('s')), Optional)])

  /** `(\d+)\s*comments?`, case-insensitive. */
  const MetaComments: Pattern :=
    Pattern(false, [Open, Step(Digit, Plus), Close] + Spaces + LitI("comment") + [Step(AnyOf(Fold('s')), Optional)])

  /** `([\d,]+)\s*likes?`, case-insensitive. */
  const DomLikes: Pattern :=
    Pattern(false, [Open, Step(AnyOf(DigitChars + {','}), Plus), Close] + Spaces + LitI("like") + [Step(AnyOf(Fold('s')), Optional)])

  /** `View all (\d+)`, case-insensitive. */
  const ViewAll: Pattern :=
    Pattern(false, LitI("View all ") + [Open, Step(Digit, Plus), Close])

  // --- the unit normaliser (src/instagram_crawler.py:202, 228)

  /** `[\d.]+` */
  const DecimalRun: Pattern := RunPattern(AnyOf(DigitChars + {'.'}))

  /** `\d+` */
  const DigitRun: Pattern := RunPattern(Digit)
}
