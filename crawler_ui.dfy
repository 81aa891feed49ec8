/** The crawler pages (src/ui/crawler_components.py): the checks of the
    single-post form and the record it saves, the rows an uploaded sheet
    hands to the batch, and the tally of the saved batch results. Widgets
    are left out; a sheet is the grid of cells `read_excel` returns. */
module CrawlerUi {
  import opened Wrappers
  import opened Text
  import opened Urls
  import opened Crawler
  import opened Database
  import opened Batch

  // ---------------------------------------------------------------------------
  // The single-post form (src/ui/crawler_components.py:26-99)

  const EmptyUrlMessage: string := "URL을 입력해주세요!"
  const NotInstagramMessage: string := "올바른 Instagram URL을 입력해주세요!"
  const SinglePrefix: string := "Single Crawl - "

  /** The message that turns a URL away before any crawl, if any. */
  function UrlRejection(url: string): (r: Option<string>)
    ensures r.None? <==> url != [] && Contains(url, InstagramHost)
    ensures url == [] ==> r == Some(EmptyUrlMessage)
    ensures url != [] && !Contains(url, InstagramHost) ==> r == Some(NotInstagramMessage)
  {
    if url == [] then Some(EmptyUrlMessage)
    else if !Contains(url, InstagramHost) then Some(NotInstagramMessage)
    else None
  }

  /** The `InstagramCrawlResult` a page saves. */
  datatype CrawlRecord = CrawlRecord(postName: string, postUrl: string, likes: nat, comments: nat, status: Status)

  /** What the form ends in: turned away, a failed crawl, a crawl and the
      record it saves, or the IndexError of the post name escaping the page. */
  datatype SingleOutcome =
    | Rejected(message: string)
    | Failed(result: PostResult)
    | Saved(result: PostResult, record: CrawlRecord)
    | Crashed(message: string)

  /** `f"Single Crawl - {url.split('/')[-2]}"`. */
  function SinglePostName(url: string): (r: Option<string>)
    ensures r.Some? <==> '/' in url
    ensures r.Some? ==> r.value == SinglePrefix + SecondLastSegment(url).value
  {
    var piece := SecondLastSegment(url);
    if piece.Some? then Some(SinglePrefix + piece.value) else None
  }

  /** The single-post form as a function of what the browser does. */
  function SingleCrawl(url: string, launch: Launch, visit: PostVisit): (o: SingleOutcome)
    requires PossibleLaunch(launch)
    ensures o.Rejected? <==> UrlRejection(url).Some?
    ensures o.Rejected? ==> o.message == UrlRejection(url).value
    ensures o.Failed? ==> o.result == PostCrawl(false, launch, visit, url) && o.result.status != Success
    ensures o.Saved? ==>
              o.result == PostCrawl(false, launch, visit, url) && o.result.status == Success &&
              SinglePostName(url) == Some(o.record.postName) && o.record.postUrl == url &&
              o.record.likes == o.result.likes && o.record.comments == o.result.comments && o.record.status == Success
    ensures o.Crashed? <==> UrlRejection(url).None? && PostCrawl(false, launch, visit, url).status == Success && '/' !in url
  {
    if UrlRejection(url).Some? then Rejected(UrlRejection(url).value)
    else
      var result := PostCrawl(false, launch, visit, url);
      if result.status != Success then Failed(result)
      else
        var name := SinglePostName(url);
        if name.None? then Crashed(IndexErrorText)
        else Saved(result, CrawlRecord(name.value, url, result.likes, result.comments, result.status))
  }

  /** The form's button: a rejected URL never reaches a browser, and the
      crawler is closed right after the crawl. */
  method SingleCrawlForm(url: string, launch: Launch, visit: PostVisit) returns (o: SingleOutcome, crawler: InstagramCrawler)
    requires PossibleLaunch(launch)
    ensures o == SingleCrawl(url, launch, visit)
    ensures crawler.driver.None? && crawler.backgroundTasks == {} && crawler.launches == crawler.quits
    ensures UrlRejection(url).Some? ==> crawler.launches == 0
  {
    crawler := new InstagramCrawler();
    if url == [] {
      return Rejected(EmptyUrlMessage), crawler;
    } else if !Contains(url, InstagramHost) {
      return Rejected(NotInstagramMessage), crawler;
    }
    var result := crawler.CrawlPost(url, launch, visit);
    var _ := crawler.CloseDriver();
    if result.status == Success {
      var name := SinglePostName(url);
      if name.None? {
        return Crashed(IndexErrorText), crawler;
      }
      o := Saved(result, CrawlRecord(name.value, url, result.likes, result.comments, result.status));
    } else {
      o := Failed(result);
    }
  }

  /** The pieces of a post address. */
  function PostPieces(code: string): seq<string> {
    ["https:", "", "www.instagram.com", "p", code, ""]
  }

  lemma JoinPostTail(code: string)
    ensures Join(PostPieces(code)[1..], "/") == "/www.instagram.com/p/" + code + "/"
  {
    var parts := PostPieces(code)[1..];
    assert parts[1..] == ["www.instagram.com", "p", code, ""];
    assert parts[1..][1..] == ["p", code, ""];
    assert parts[1..][1..][1..] == [code, ""];
    assert parts[1..][1..][1..][1..] == [""];
    assert Join(parts[1..][1..][1..], "/") == code + "/";
    assert Join(parts[1..][1..], "/") == "p/" + code + "/";
    assert Join(parts[1..], "/") == "www.instagram.com/p/" + code + "/";
  }

  /** The address of post `code`. */
  function PostUrl(code: string): string {
    "https://www.instagram.com/p/" + code + "/"
  }

  lemma JoinPostPieces(code: string)
    ensures Join(PostPieces(code), "/") == PostUrl(code)
  {
    JoinPostTail(code);
    assert "https:" + "/" + "/www.instagram.com/p/" == "https://www.instagram.com/p/";
  }

  /** The saved name of a post address is the post's code. */
  lemma PostNameIsCode(code: string)
    requires '/' !in code
    ensures SinglePostName(PostUrl(code)) == Some(SinglePrefix + code)
  {
    var parts := PostPieces(code);
    JoinPostPieces(code);
    forall k | 0 <= k < |parts| ensures '/' !in parts[k] {
    }
    SplitJoin(parts, '/');
  }

  // ---------------------------------------------------------------------------
  // The rows of an uploaded sheet (src/ui/crawler_components.py:128-155)

  const FormatMessage: string := "엑셀 파일 형식이 올바르지 않습니다."
  const NoValidMessage: string := "유효한 Instagram URL이 없습니다."

  /** The sheet `read_excel` returns: a column count and rows of that many cells, labelled by position. */
  datatype Sheet = Sheet(width: nat, cells: seq<seq<Cell>>)

  /** A row that keeps its label through the filters. */
  datatype Labelled = Labelled(pos: nat, cells: seq<Cell>)

  predicate AllBlank(cells: seq<Cell>) {
    forall k :: 0 <= k < |cells| ==> cells[k].Blank?
  }

  /** `astype(str)` of a non-empty cell. */
  function CellText(c: Cell): string {
    match c
    case Blank => "nan"
    case Str(t) => t
    case NonStr(shown) => shown
  }

  /** The link (second) cell is not empty and its text matches the pattern
      `instagram.com`: `str.contains` searches a regular expression by
      default, so the dot stands for any character but a newline. */
  predicate Selected(cells: seq<Cell>) {
    |cells| >= 2 && !cells[1].Blank? && MatchesHost(CellText(cells[1]))
  }

  /** The pattern `instagram.com` matches `t` at position `i`. */
  predicate HostPatternAt(t: string, i: nat) {
    i + 13 <= |t| && t[i..i + 9] == "instagram" && t[i + 9] != '\n' && t[i + 10..i + 13] == "com"
  }

  /** `re.search('instagram.com', t)` finds a match. */
  predicate MatchesHost(t: string) {
    exists i: nat :: i < |t| && HostPatternAt(t, i)
  }

  /** Every text holding "instagram.com" matches the pattern, so no link the
      batch accepts is filtered out first. */
  lemma {:induction false} HostMatchesPattern(t: string)
    requires Contains(t, InstagramHost)
    ensures MatchesHost(t)
  {
    if InstagramHost <= t {
      assert t[..13] == InstagramHost;
      assert t[0..9] == "instagram" && t[10..13] == "com";
      assert HostPatternAt(t, 0);
    } else {
      HostMatchesPattern(t[1..]);
      var i: nat :| i < |t[1..]| && HostPatternAt(t[1..], i);
      assert t[1..][i..i + 9] == t[i + 1..i + 10];
      assert t[1..][i + 10..i + 13] == t[i + 11..i + 14];
      assert HostPatternAt(t, i + 1);
    }
  }

  /** A string without a dot does not hold "instagram.com". */
  lemma {:induction false} NoDotNoHost(t: string)
    requires '.' !in t
    ensures !Contains(t, InstagramHost)
  {
    if t != [] {
      assert InstagramHost[9] == '.';
      if InstagramHost <= t {
        assert false;
      }
      assert '.' !in t[1..] by {
        forall k | 0 <= k < |t[1..]| ensures t[1..][k] != '.' {
          assert t[1..][k] == t[k + 1];
        }
      }
      NoDotNoHost(t[1..]);
    }
  }

  /** A mistyped link such as "https://instagram,com/p/x/" passes the sheet's
      filter but not the batch's own check, which turns it into an error row. */
  lemma LooseLinkKept()
    ensures Selected([Str("a"), Str("https://instagram,com/p/x/")])
    ensures !ValidLink(Str("https://instagram,com/p/x/"))
  {
    var t := "https://instagram,com/p/x/";
    assert t[8..17] == "instagram" && t[17] == ',' && t[18..21] == "com";
    assert HostPatternAt(t, 8);
    NoDotNoHost(t);
  }

  /** The rows of the sheet from position `from` on, with their labels. */
  function Frame(cells: seq<seq<Cell>>, from: nat): seq<Labelled>
    decreases |cells| - from
  {
    if from >= |cells| then [] else [Labelled(from, cells[from])] + Frame(cells, from + 1)
  }

  /** `df.dropna(how='all')`. */
  function DropEmpty(f: seq<Labelled>): seq<Labelled> {
    if f == [] then []
    else (if AllBlank(f[0].cells) then [] else [f[0]]) + DropEmpty(f[1..])
  }

  /** The rows with a usable link, as the batch sees them. */
  function SelectValid(f: seq<Labelled>): (rows: seq<Row>)
    ensures |rows| <= |f|
  {
    if f == [] then []
    else if Selected(f[0].cells) then [Row(f[0].pos, f[0].cells[0], f[0].cells[1])] + SelectValid(f[1..])
    else SelectValid(f[1..])
  }

  /** The rows an uploaded sheet hands to the batch, or the message that stops the page. */
  function SheetRows(s: Sheet): (r: Result<seq<Row>, string>)
    ensures s.width < 2 <==> r == Err(FormatMessage)
    ensures r.Ok? ==> r.value == SelectValid(Frame(s.cells, 0)) && r.value != []
    ensures r == Err(NoValidMessage) <==> s.width >= 2 && SelectValid(Frame(s.cells, 0)) == []
  {
    var frame := DropEmpty(Frame(s.cells, 0));
    if s.width < 2 then Err(FormatMessage)
    else
      var valid := SelectValid(frame);
      DropEmptyKeepsValid(Frame(s.cells, 0));
      if valid == [] then Err(NoValidMessage) else Ok(valid)
  }

  /** Dropping the empty rows first makes no difference to the valid rows:
      a row with a link is never empty. */
  lemma {:induction false} DropEmptyKeepsValid(f: seq<Labelled>)
    ensures SelectValid(DropEmpty(f)) == SelectValid(f)
  {
    if f != [] {
      DropEmptyKeepsValid(f[1..]);
      if !AllBlank(f[0].cells) {
        assert ([f[0]] + DropEmpty(f[1..]))[1..] == DropEmpty(f[1..]);
      } else {
        assert DropEmpty(f) == DropEmpty(f[1..]);
        assert !Selected(f[0].cells) by {
          if |f[0].cells| >= 2 {
            assert f[0].cells[1].Blank?;
          }
        }
      }
    }
  }

  /** One row off the front of the frame. */
  lemma FrameStep(cells: seq<seq<Cell>>, from: nat)
    requires from < |cells|
    ensures var tail := SelectValid(Frame(cells, from + 1));
      SelectValid(Frame(cells, from)) ==
        if Selected(cells[from]) then [Row(from, cells[from][0], cells[from][1])] + tail else tail
  {
    var f := Frame(cells, from);
    assert f[0] == Labelled(from, cells[from]);
    assert f[1..] == Frame(cells, from + 1);
  }

  /** Every valid row is a sheet row with a usable link, under its sheet label. */
  lemma {:induction false} FrameRowsFromSheet(cells: seq<seq<Cell>>, from: nat)
    requires from <= |cells|
    ensures var rows := SelectValid(Frame(cells, from));
      forall k :: 0 <= k < |rows| ==>
        from <= rows[k].index < |cells| && Selected(cells[rows[k].index]) &&
        rows[k].name == cells[rows[k].index][0] && rows[k].link == cells[rows[k].index][1]
    decreases |cells| - from
  {
    if from < |cells| {
      FrameRowsFromSheet(cells, from + 1);
      FrameStep(cells, from);
    }
  }

  /** The valid rows keep the sheet's order. */
  lemma {:induction false} FrameRowsOrdered(cells: seq<seq<Cell>>, from: nat)
    requires from <= |cells|
    ensures var rows := SelectValid(Frame(cells, from));
      forall k, m :: 0 <= k < m < |rows| ==> rows[k].index < rows[m].index
    decreases |cells| - from
  {
    if from < |cells| {
      FrameRowsOrdered(cells, from + 1);
      FrameRowsFromSheet(cells, from + 1);
      FrameStep(cells, from);
    }
  }

  /** Every sheet row with a usable link is among the valid rows. */
  lemma {:induction false} FrameRowsComplete(cells: seq<seq<Cell>>, from: nat, i: nat)
    requires from <= i < |cells| && Selected(cells[i])
    ensures var rows := SelectValid(Frame(cells, from));
      exists k :: 0 <= k < |rows| && rows[k].index == i
    decreases i - from
  {
    FrameStep(cells, from);
    var rows := SelectValid(Frame(cells, from));
    if i == from {
      assert rows[0].index == i;
    } else {
      FrameRowsComplete(cells, from + 1, i);
      var tail := SelectValid(Frame(cells, from + 1));
      var k :| 0 <= k < |tail| && tail[k].index == i;
      if Selected(cells[from]) {
        assert rows[k + 1].index == i;
      } else {
        assert rows[k].index == i;
      }
    }
  }

  // ---------------------------------------------------------------------------
  // The batch and its tally (src/ui/crawler_components.py:171-227)

  /** Saved results (`saved[i]` is whether the save of result `i` succeeded)
      among the first `n` whose status is (`success`) or is not a success. */
  function SavedWith(results: seq<BatchRow>, saved: seq<bool>, n: nat, success: bool): nat
    requires n <= |results| && |saved| == |results|
  {
    if n == 0 then 0
    else SavedWith(results, saved, n - 1, success) + (if saved[n - 1] && (results[n - 1].status == Success) == success then 1 else 0)
  }

  /** A result counts once at most, and only once its save succeeded. */
  lemma {:induction false} PostTallyBound(results: seq<BatchRow>, saved: seq<bool>, n: nat)
    requires n <= |results| && |saved| == |results|
    ensures SavedWith(results, saved, n, true) + SavedWith(results, saved, n, false) <= n
    ensures (forall j :: 0 <= j < n ==> saved[j]) ==>
              SavedWith(results, saved, n, true) + SavedWith(results, saved, n, false) == n
    ensures (forall j :: 0 <= j < n ==> !saved[j]) ==>
              SavedWith(results, saved, n, true) + SavedWith(results, saved, n, false) == 0
  {
    if n > 0 {
      PostTallyBound(results, saved, n - 1);
    }
  }

  /** The loop that saves each result and counts the saved ones by status. */
  method PostTally(results: seq<BatchRow>, saved: seq<bool>) returns (successful: nat, failed: nat)
    requires |saved| == |results|
    ensures successful == SavedWith(results, saved, |results|, true)
    ensures failed == SavedWith(results, saved, |results|, false)
    ensures successful + failed <= |results|
  {
    successful, failed := 0, 0;
    var i := 0;
    while i < |results|
      invariant 0 <= i <= |results|
      invariant successful == SavedWith(results, saved, i, true) && failed == SavedWith(results, saved, i, false)
    {
      if saved[i] {
        if results[i].status == Success {
          successful := successful + 1;
        } else {
          failed := failed + 1;
        }
      }
      i := i + 1;
    }
    PostTallyBound(results, saved, |results|);
  }

  datatype SheetOutcome =
    | SheetRejected(message: string)
    | BatchDone(results: seq<BatchRow>, events: seq<Event>, successful: nat, failed: nat, session: Option<SessionUpdate>)

  /** The batch form as written: the sheet's rows, the batch crawl with no
      callback and three widgets, which reports nothing and keys the rows by
      their labels, the save tally and the session update. `now` and `later`
      are the clock reads of the session update. */
  method SheetBatch(s: Sheet, replies: seq<Reply>, cooldowns: seq<nat>, saved: seq<bool>, sessionId: Option<string>, now: string, later: string)
    returns (o: SheetOutcome)
    requires SheetRows(s).Ok? ==> Oracle(SheetRows(s).value, replies, cooldowns) && |saved| == |SheetRows(s).value|
    ensures SheetRows(s).Err? ==> o == SheetRejected(SheetRows(s).error)
    ensures SheetRows(s).Ok? ==>
              var rows := SheetRows(s).value;
              var rep := ReportingAsWritten(false, true, true, true);
              o.BatchDone? &&
              o.results == Results(rows, rep, replies, cooldowns, false) &&
              o.events == EventsAsWritten(rows, rep, replies, cooldowns) &&
              (forall e :: e in o.events ==> e.Sleep?) &&
              o.successful == SavedWith(o.results, saved, |rows|, true) &&
              o.failed == SavedWith(o.results, saved, |rows|, false) &&
              o.successful + o.failed <= |rows| &&
              o.session == SessionAfterTally(sessionId, o.successful, o.failed, now, later)
  {
    var rows := SheetRows(s);
    if rows.Err? {
      return SheetRejected(rows.error);
    }
    var rep := ReportingAsWritten(false, true, true, true);
    var results, events := BatchCrawlPosts(rows.value, rep, replies, cooldowns);
    WidgetsIgnored();
    SilentOnlySleeps(rows.value, |rows.value|, replies, cooldowns, false);
    var successful, failed := PostTally(results, saved);
    o := BatchDone(results, events, successful, failed, SessionAfterTally(sessionId, successful, failed, now, later));
  }

  /** The batch form as intended: progress on the three widgets and rows keyed
      by their positions. The results and the tally are those of `SheetBatch`. */
  method SheetBatchCorrected(s: Sheet, replies: seq<Reply>, cooldowns: seq<nat>, saved: seq<bool>, sessionId: Option<string>, now: string, later: string)
    returns (o: SheetOutcome)
    requires SheetRows(s).Ok? ==> Oracle(SheetRows(s).value, replies, cooldowns) && |saved| == |SheetRows(s).value|
    ensures SheetRows(s).Err? ==> o == SheetRejected(SheetRows(s).error)
    ensures SheetRows(s).Ok? ==>
              var rows := SheetRows(s).value;
              var rep := IntendedReporting(false, true, true, true);
              o.BatchDone? &&
              o.results == Results(rows, rep, replies, cooldowns, true) &&
              o.results == Results(rows, ReportingAsWritten(false, true, true, true), replies, cooldowns, false) &&
              o.events == BatchEvents(rows, rep, replies, cooldowns) &&
              o.successful == SavedWith(o.results, saved, |rows|, true) &&
              o.failed == SavedWith(o.results, saved, |rows|, false) &&
              o.successful + o.failed <= |rows| &&
              o.session == SessionAfterTally(sessionId, o.successful, o.failed, now, later)
  {
    var rows := SheetRows(s);
    if rows.Err? {
      return SheetRejected(rows.error);
    }
    var rep := IntendedReporting(false, true, true, true);
    var results, events := BatchCrawlPostsCorrected(rows.value, rep, replies, cooldowns);
    ResultsKeyFree(rows.value, ReportingAsWritten(false, true, true, true), rep, replies, cooldowns);
    var successful, failed := PostTally(results, saved);
    o := BatchDone(results, events, successful, failed, SessionAfterTally(sessionId, successful, failed, now, later));
  }
}
