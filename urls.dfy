/** The two ways the crawler code turns an Instagram handle into an address
    and back: the profile address built from a handle, and the handle read
    back as the second-to-last `/`-separated piece of an address. */
module Urls {
  import opened Wrappers
  import opened Text

  const InstagramHost: string := "instagram.com"
  const ProfilePrefix: string := "https://www.instagram.com/"

  /** `f"https://www.instagram.com/{sns_id.replace('@', '')}/"`. */
  function ProfileUrl(snsId: string): (url: string)
    ensures url == ProfilePrefix + RemoveChar(snsId, '@') + "/"
    ensures Contains(url, InstagramHost)
  {
    var url := ProfilePrefix + RemoveChar(snsId, '@') + "/";
    ContainsAt(url, InstagramHost, 12);
    url
  }

  /** `str()` of the IndexError `url.split('/')[-2]` raises. */
  const IndexErrorText: string := "list index out of range"

  /** `url.split('/')[-2]`; `None` where Python raises IndexError, which is
      exactly when the address holds no `/`. */
  function SecondLastSegment(url: string): (r: Option<string>)
    ensures r.None? <==> '/' !in url
    ensures r.Some? ==> '/' !in r.value
    ensures r.Some? ==> r.value == Split(url, '/')[|Split(url, '/')| - 2]
  {
    var parts := Split(url, '/');
    if |parts| >= 2 then
      JoinHasSeparator(parts, '/');
      Some(parts[|parts| - 2])
    else
      None
  }

  /** Joining two or more pieces puts the separator in. */
  lemma JoinHasSeparator(parts: seq<string>, c: char)
    requires |parts| >= 2
    ensures c in Join(parts, [c])
  {
    var j := Join(parts, [c]);
    assert j == parts[0] + [c] + Join(parts[1..], [c]);
    assert j[|parts[0]|] == c;
  }

  /** An address without `/` splits into one piece. */
  lemma NoSeparatorOnePiece(url: string)
    requires '/' !in url
    ensures Split(url, '/') == [url]
  {
    SplitPiece(url, '/');
  }

  /** The pieces of a profile address. */
  function ProfilePieces(h: string): seq<string> {
    ["https:", "", "www.instagram.com", h, ""]
  }

  lemma JoinTail(h: string)
    ensures Join(ProfilePieces(h)[1..], "/") == "/www.instagram.com/" + h + "/"
  {
    var parts := ProfilePieces(h);
    assert parts[1..][1..] == ["www.instagram.com", h, ""];
    assert parts[1..][1..][1..] == [h, ""];
    assert parts[1..][1..][1..][1..] == [""];
    assert Join(parts[1..][1..][1..], "/") == h + "/";
    assert Join(parts[1..][1..], "/") == "www.instagram.com/" + h + "/";
  }

  lemma JoinProfilePieces(h: string)
    ensures Join(ProfilePieces(h), "/") == ProfilePrefix + h + "/"
  {
    JoinTail(h);
    assert "https:" + "/" + "/www.instagram.com/" == ProfilePrefix;
  }

  /** Handle to address and back: for a handle without `/`, the profile
      address gives the handle back with its `@` signs removed. */
  lemma HandleRoundTrip(snsId: string)
    requires '/' !in snsId
    ensures SecondLastSegment(ProfileUrl(snsId)) == Some(RemoveChar(snsId, '@'))
  {
    var h := RemoveChar(snsId, '@');
    var parts := ProfilePieces(h);
    JoinProfilePieces(h);
    forall k | 0 <= k < |parts| ensures '/' !in parts[k] {
    }
    SplitJoin(parts, '/');
  }
}
