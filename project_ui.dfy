/** The logic of the project pages (src/ui/project_components.py) that sits
    around the crawler: one profile crawl with its handle and address
    derivation and the database write it leads to, the profile batch and its
    tally, tag parsing, the campaign filter, the pagination of
    participations and the editing of a participation's content links.
    Streamlit widgets are left out; what a widget returns is a parameter. */
module ProjectUi {
  import opened Wrappers
  import opened Text
  import opened Urls
  import opened ProfileExtract
  import opened Crawler
  import opened Database

  const Instagram: string := "instagram"
  const Youtube: string := "youtube"
  const Tiktok: string := "tiktok"
  const Twitter: string := "twitter"

  // ---------------------------------------------------------------------------
  // perform_crawling (src/ui/project_components.py:41-175)

  const YoutubeNotice: string := "YouTube는 아직 지원하지 않습니다."
  const TiktokNotice: string := "TikTok은 아직 지원하지 않습니다."
  const TwitterNotice: string := "Twitter는 아직 지원하지 않습니다."
  const DoneMessage: string := "크롤링이 완료되었습니다!"
  const FailPrefix: string := "크롤링 실패: "
  const UnknownError: string := "알 수 없는 오류"
  const ExceptionPrefix: string := "크롤링 중 오류가 발생했습니다: "
  const DbUpdated: string := "✅ 인플루언서 데이터가 업데이트되었습니다."
  const DbUpdateFailed: string := "❌ 업데이트 실패: "
  const DbCreated: string := "✅ 새로운 인플루언서가 데이터베이스에 저장되었습니다."
  const DbCreateFailed: string := "❌ 저장 실패: "
  const DbSkipped: string := "💾 데이터베이스 저장을 건너뛰었습니다."
  /** The messages `update_influencer_data` and `create_influencer_from_crawl` prefix to an exception. */
  const UpdateErrorPrefix: string := "인플루언서 데이터 업데이트 중 오류가 발생했습니다: "
  const CreateErrorPrefix: string := "인플루언서 생성 중 오류가 발생했습니다: "

  /** `f"{platform.title()} 크롤링은 아직 지원되지 않습니다. Instagram만 지원됩니다."` */
  function OnlyInstagramMessage(platform: string): string {
    Title(platform) + " 크롤링은 아직 지원되지 않습니다. Instagram만 지원됩니다."
  }

  /** The notice of a platform that has its own early answer when only a handle is given. */
  function PlatformNotice(platform: string): Option<string> {
    if platform == Youtube then Some(YoutubeNotice)
    else if platform == Tiktok then Some(TiktokNotice)
    else if platform == Twitter then Some(TwitterNotice)
    else None
  }

  /** Only a handle was given, for a platform answered before anything is crawled. */
  predicate EarlyExit(platform: string, url: string, snsId: string) {
    url == [] && snsId != [] && PlatformNotice(platform).Some?
  }

  /** The address crawled: the given one, or the profile address built from the handle. */
  function TargetUrl(platform: string, url: string, snsId: string): string {
    if url == [] && snsId != [] && platform == Instagram then ProfileUrl(snsId) else url
  }

  /** `clean_sns_id`: the handle without `@`, else the address's second-to-last
      piece, else ""; `None` where that piece does not exist (IndexError). */
  function CleanSnsId(snsId: string, url: string): (r: Option<string>)
    ensures snsId != [] ==> r == Some(RemoveChar(snsId, '@'))
    ensures snsId == [] && url != [] ==> r == SecondLastSegment(url)
  {
    if snsId != [] then Some(RemoveChar(snsId, '@'))
    else if url != [] then SecondLastSegment(url)
    else Some([])
  }

  /** The profile dictionary a successful crawl passes to the database: every key present. */
  function CrawledOf(r: ProfileResult): (d: Crawled)
    ensures d.name == Some(r.name) && d.text == Some(r.bio) && d.imageUrl == Some(r.imageUrl)
    ensures d.followers == Some(r.followers as int) && d.posts == Some(r.posts as int)
  {
    Crawled(Some(r.name), Some(r.followers), Some(r.posts), Some(r.bio), Some(r.imageUrl))
  }

  /** The database call the crawl leads to. */
  datatype DbCall = NoCall | UpdateCall(id: string, profile: Crawled) | CreateCall(platform: string, snsId: string, profile: Crawled)

  datatype CrawlData = CrawlData(result: ProfileResult, cleanSnsId: string, dbMessage: string)
  datatype CrawlReply = CrawlReply(success: bool, message: string, data: Option<CrawlData>)
  datatype Performed = Performed(reply: CrawlReply, call: DbCall)

  /** The save step after a successful crawl: an update of the row with the
      same platform and handle, else the creation of a new one. `lookupFails`
      is whether `check_influencer_exists` meets an exception, which it turns
      into `None`, so the step creates a row even when one exists; `dbFault`
      is the exception the update or creation meets, if any. */
  function DbStep(platform: string, clean: string, result: ProfileResult, saveToDb: bool,
                  table: seq<InfluencerRow>, lookupFails: bool, dbFault: Option<string>): (r: (string, DbCall))
    ensures !saveToDb <==> r.1.NoCall?
    ensures !saveToDb ==> r.0 == DbSkipped
    ensures r.1.UpdateCall? <==> saveToDb && !lookupFails && CheckInfluencerExists(table, platform, clean).Some?
    ensures saveToDb && lookupFails ==> r.1.CreateCall?
    ensures r.1.UpdateCall? ==>
              r.1 == UpdateCall(CheckInfluencerExists(table, platform, clean).value.id, CrawledOf(result)) &&
              r.0 == if dbFault.Some? then DbUpdateFailed + UpdateErrorPrefix + dbFault.value else DbUpdated
    ensures r.1.CreateCall? ==>
              r.1 == CreateCall(platform, clean, CrawledOf(result)) &&
              r.0 == if dbFault.Some? then DbCreateFailed + CreateErrorPrefix + dbFault.value else DbCreated
  {
    if !saveToDb then (DbSkipped, NoCall)
    else
      var existing := if lookupFails then None else CheckInfluencerExists(table, platform, clean);
      if existing.Some? then
        (if dbFault.Some? then DbUpdateFailed + UpdateErrorPrefix + dbFault.value else DbUpdated,
         UpdateCall(existing.value.id, CrawledOf(result)))
      else
        (if dbFault.Some? then DbCreateFailed + CreateErrorPrefix + dbFault.value else DbCreated,
         CreateCall(platform, clean, CrawledOf(result)))
  }

  /** `perform_crawling` with a fresh crawler, as a function of what the
      browser (`launch`, `visit`) and the database (`table`, `lookupFails`,
      `dbFault`) do. */
  function Perform(platform: string, url: string, snsId: string, saveToDb: bool, launch: Launch, visit: Visit,
                   table: seq<InfluencerRow>, lookupFails: bool, dbFault: Option<string>): (o: Performed)
    requires PossibleLaunch(launch)
    ensures o.reply.success <==> o.reply.data.Some?
  {
    if EarlyExit(platform, url, snsId) then
      Performed(CrawlReply(false, PlatformNotice(platform).value, None), NoCall)
    else if platform != Instagram then
      Performed(CrawlReply(false, OnlyInstagramMessage(platform), None), NoCall)
    else
      var target := TargetUrl(platform, url, snsId);
      var clean := CleanSnsId(snsId, target);
      if clean.None? then
        Performed(CrawlReply(false, ExceptionPrefix + IndexErrorText, None), NoCall)
      else
        Answer(platform, clean.value, ProfileCrawl(false, launch, visit, target), saveToDb, table, lookupFails, dbFault)
  }

  /** The answer once the profile has been crawled: the crawler's error, or
      the data with the outcome of the database step. */
  function Answer(platform: string, clean: string, result: ProfileResult, saveToDb: bool,
                  table: seq<InfluencerRow>, lookupFails: bool, dbFault: Option<string>): (o: Performed)
    ensures o.reply.success <==> result.status == Success
    ensures !o.reply.success ==> o.call == NoCall && o.reply.data.None? && o.reply.message == FailPrefix + result.error.GetOr(UnknownError)
    ensures o.reply.success ==>
              o.reply.message == DoneMessage &&
              o.reply.data == Some(CrawlData(result, clean, DbStep(platform, clean, result, saveToDb, table, lookupFails, dbFault).0)) &&
              o.call == DbStep(platform, clean, result, saveToDb, table, lookupFails, dbFault).1
  {
    if result.status != Success then
      Performed(CrawlReply(false, FailPrefix + result.error.GetOr(UnknownError), None), NoCall)
    else
      var step := DbStep(platform, clean, result, saveToDb, table, lookupFails, dbFault);
      Performed(CrawlReply(true, DoneMessage, Some(CrawlData(result, clean, step.0))), step.1)
  }

  /** What `perform_crawling` promises of its answer `o`: success exactly for
      a successful Instagram crawl, the platform notices, the IndexError of an
      address without `/`, the crawler's error message, and on success the
      data and the database call of `DbStep`. */
  predicate PerformPromise(platform: string, url: string, snsId: string, saveToDb: bool, launch: Launch, visit: Visit,
                           table: seq<InfluencerRow>, lookupFails: bool, dbFault: Option<string>, o: Performed)
    requires PossibleLaunch(launch)
  {
    var target := TargetUrl(platform, url, snsId);
    var clean := CleanSnsId(snsId, target);
    var result := ProfileCrawl(false, launch, visit, target);
    (o.reply.success <==> platform == Instagram && clean.Some? && result.status == Success) &&
    (o.call != NoCall ==> o.reply.success && saveToDb) &&
    (platform != Instagram ==>
       o.call == NoCall &&
       o.reply.message == if EarlyExit(platform, url, snsId) then PlatformNotice(platform).value else OnlyInstagramMessage(platform)) &&
    (platform == Instagram && clean.None? ==> o.reply.message == ExceptionPrefix + IndexErrorText) &&
    (platform == Instagram && clean.Some? && !o.reply.success ==>
       o.reply.message == FailPrefix + result.error.GetOr(UnknownError)) &&
    (o.reply.success ==>
       clean.Some? &&
       o.reply.message == DoneMessage &&
       o.reply.data == Some(CrawlData(result, clean.value, DbStep(platform, clean.value, result, saveToDb, table, lookupFails, dbFault).0)) &&
       o.call == DbStep(platform, clean.value, result, saveToDb, table, lookupFails, dbFault).1)
  }

  lemma PerformOutcome(platform: string, url: string, snsId: string, saveToDb: bool, launch: Launch, visit: Visit,
                       table: seq<InfluencerRow>, lookupFails: bool, dbFault: Option<string>)
    requires PossibleLaunch(launch)
    ensures PerformPromise(platform, url, snsId, saveToDb, launch, visit, table, lookupFails, dbFault, Perform(platform, url, snsId, saveToDb, launch, visit, table, lookupFails, dbFault))
  {
  }

  /** `perform_crawling`: the crawler it creates is closed on every path after
      it is used, so every browser launched is quit; a platform other than
      Instagram never launches one. */
  method PerformCrawling(platform: string, url: string, snsId: string, saveToDb: bool, launch: Launch, visit: Visit,
                         table: seq<InfluencerRow>, lookupFails: bool, dbFault: Option<string>)
    returns (o: Performed, crawler: InstagramCrawler)
    requires PossibleLaunch(launch)
    ensures o == Perform(platform, url, snsId, saveToDb, launch, visit, table, lookupFails, dbFault)
    ensures crawler.driver.None? && crawler.backgroundTasks == {}
    ensures crawler.launches == crawler.quits && crawler.launches <= 1
    ensures platform != Instagram ==> crawler.launches == 0
  {
    crawler := new InstagramCrawler();
    var target := url;
    if url == [] && snsId != [] {
      if platform == Instagram {
        target := ProfileUrl(snsId);
      } else if platform == Youtube {
        return Performed(CrawlReply(false, YoutubeNotice, None), NoCall), crawler;
      } else if platform == Tiktok {
        return Performed(CrawlReply(false, TiktokNotice, None), NoCall), crawler;
      } else if platform == Twitter {
        return Performed(CrawlReply(false, TwitterNotice, None), NoCall), crawler;
      }
    }
    assert !EarlyExit(platform, url, snsId);
    if platform == Instagram {
      assert target == TargetUrl(platform, url, snsId);
      var clean := CleanSnsId(snsId, target);
      if clean.None? {
        var _ := crawler.CloseDriver();
        return Performed(CrawlReply(false, ExceptionPrefix + IndexErrorText, None), NoCall), crawler;
      }
      o := CrawlAndAnswer(crawler, platform, target, clean.value, saveToDb, launch, visit, table, lookupFails, dbFault);
    } else {
      var _ := crawler.CloseDriver();
      o := Performed(CrawlReply(false, OnlyInstagramMessage(platform), None), NoCall);
    }
  }

  /** The Instagram path of `perform_crawling`: crawl the address with the
      fresh crawler, answer, and close the crawler. */
  method CrawlAndAnswer(crawler: InstagramCrawler, platform: string, target: string, clean: string, saveToDb: bool,
                        launch: Launch, visit: Visit, table: seq<InfluencerRow>, lookupFails: bool, dbFault: Option<string>)
    returns (o: Performed)
    requires PossibleLaunch(launch)
    requires crawler.driver.None? && crawler.backgroundTasks == {} && crawler.launches == 0 && crawler.quits == 0
    modifies crawler
    ensures o == Answer(platform, clean, ProfileCrawl(false, launch, visit, target), saveToDb, table, lookupFails, dbFault)
    ensures crawler.driver.None? && crawler.backgroundTasks == {}
    ensures crawler.launches == crawler.quits && crawler.launches <= 1
  {
    var result := crawler.CrawlProfile(target, launch, visit);
    o := Answer(platform, clean, result, saveToDb, table, lookupFails, dbFault);
    var _ := crawler.CloseDriver();
  }

  /** Giving a handle or the profile address built from it leads to the same
      cleaned handle, for a handle without `/`. */
  lemma HandleDerivationsAgree(snsId: string)
    requires snsId != [] && '/' !in snsId
    ensures CleanSnsId([], TargetUrl(Instagram, [], snsId)) == CleanSnsId(snsId, [])
    ensures CleanSnsId(snsId, TargetUrl(Instagram, [], snsId)) == CleanSnsId(snsId, [])
  {
    HandleRoundTrip(snsId);
  }

  /** Whatever a successful crawl found, a new influencer created from it
      takes its `sns_url` from the profile image address, never from the
      profile address (the crawl result always holds `profile_image_url`). */
  lemma CreatedSnsUrl(platform: string, snsId: string, r: ProfileResult)
    ensures CreatePayload(platform, snsId, CrawledOf(r)).snsUrl == r.imageUrl
    ensures CreatePayload(platform, snsId, CrawledOf(r)).name == if Filled(Some(r.name)) then Strip(r.name) else snsId
  {
  }

  // ---------------------------------------------------------------------------
  // The profile batch of render_batch_url_crawl (src/ui/project_components.py:572-662)

  /** A selected influencer. */
  datatype Influencer = Influencer(id: string, name: Option<string>, platform: string, snsId: string)

  /** `influencer.get('influencer_name') or influencer['sns_id']`. */
  function DisplayName(inf: Influencer): string {
    if inf.name.Some? && inf.name.value != [] then inf.name.value else inf.snsId
  }

  datatype ProfileRow = ProfileRow(
    name: string, platform: string, snsId: string, url: string,
    followers: nat, posts: nat, status: Status, error: string, updatedAt: string)

  const NotApplicable: string := "N/A"

  function UnsupportedError(platform: string): string {
    platform + " 크롤링은 아직 지원되지 않습니다."
  }

  /** What the environment does for each selected influencer: the browser
      launch and page visit of its crawl, and `faults[i]`, an exception the
      loop body raises before crawling (a malformed record). */
  predicate BatchEnv(sel: seq<Influencer>, launches: seq<Launch>, visits: seq<Visit>, faults: seq<Option<string>>) {
    |launches| == |sel| && |visits| == |sel| && |faults| == |sel| &&
    forall i :: 0 <= i < |launches| ==> PossibleLaunch(launches[i])
  }

  /** Whether influencer `j` is crawled. */
  predicate Attempted(sel: seq<Influencer>, faults: seq<Option<string>>, j: nat)
    requires j < |sel| && |faults| == |sel|
  {
    faults[j].None? && sel[j].platform == Instagram
  }

  /** Whether the shared crawler holds a browser when influencer `i` comes up:
      some earlier crawl launched one (a failed launch leaves none). */
  function HadBefore(sel: seq<Influencer>, launches: seq<Launch>, faults: seq<Option<string>>, i: nat): bool
    requires i <= |sel| && |launches| == |sel| && |faults| == |sel|
  {
    i > 0 && (HadBefore(sel, launches, faults, i - 1) || (Attempted(sel, faults, i - 1) && launches[i - 1].Launched?))
  }

  /** The row for influencer `i` and the database call the row leads to. */
  function BatchItem(sel: seq<Influencer>, launches: seq<Launch>, visits: seq<Visit>, faults: seq<Option<string>>, i: nat)
    : (r: (ProfileRow, DbCall))
    requires BatchEnv(sel, launches, visits, faults) && i < |sel|
  {
    var inf := sel[i];
    var name := DisplayName(inf);
    if faults[i].Some? then
      (ProfileRow(name, inf.platform, inf.snsId, NotApplicable, 0, 0, Error, faults[i].value, []), NoCall)
    else if inf.platform == Instagram then
      var url := ProfileUrl(inf.snsId);
      var res := ProfileCrawl(HadBefore(sel, launches, faults, i), launches[i], visits[i], url);
      (ProfileRow(name, inf.platform, inf.snsId, url, res.followers, res.posts, res.status, res.error.GetOr([]), []),
       if res.status == Success then UpdateCall(inf.id, CrawledOf(res)) else NoCall)
    else
      (ProfileRow(name, inf.platform, inf.snsId, NotApplicable, 0, 0, Error, UnsupportedError(inf.platform), []), NoCall)
  }

  /** What a batch row holds: an exception row, an unsupported row, or the
      crawl's figures, with an update call by id exactly on success. */
  predicate RowPromise(sel: seq<Influencer>, launches: seq<Launch>, visits: seq<Visit>, faults: seq<Option<string>>, i: nat,
                       r: (ProfileRow, DbCall))
    requires BatchEnv(sel, launches, visits, faults) && i < |sel|
  {
    && r.0.name == DisplayName(sel[i]) && r.0.platform == sel[i].platform && r.0.snsId == sel[i].snsId
    && r.0.updatedAt == []
    && (faults[i].Some? ==> r.0 == ProfileRow(DisplayName(sel[i]), sel[i].platform, sel[i].snsId, NotApplicable, 0, 0, Error, faults[i].value, []))
    && (faults[i].None? && sel[i].platform != Instagram ==>
          r.0.status == Error && r.0.url == NotApplicable && r.0.error == UnsupportedError(sel[i].platform) &&
          r.0.followers == 0 && r.0.posts == 0)
    && (Attempted(sel, faults, i) ==> r.0.url == ProfileUrl(sel[i].snsId))
    && (r.0.status == Success ==>
          Attempted(sel, faults, i) && visits[i].Visit? &&
          r.0.followers == ProfileOf(visits[i].page).followers && r.0.posts == ProfileOf(visits[i].page).posts)
    && (r.0.status != Success ==> r.0.followers == 0 && r.0.posts == 0)
    && (r.1.UpdateCall? <==> r.0.status == Success)
    && (r.1.UpdateCall? ==> r.1.id == sel[i].id)
    && !r.1.CreateCall?
  }

  lemma BatchItemMeaning(sel: seq<Influencer>, launches: seq<Launch>, visits: seq<Visit>, faults: seq<Option<string>>, i: nat)
    requires BatchEnv(sel, launches, visits, faults) && i < |sel|
    ensures RowPromise(sel, launches, visits, faults, i, BatchItem(sel, launches, visits, faults, i))
  {
  }


  /** One turn of the loop: the row of influencer `i`, crawled with the shared
      crawler, which holds a browser from the first successful launch on. */
  method CrawlOne(crawler: InstagramCrawler, sel: seq<Influencer>, launches: seq<Launch>, visits: seq<Visit>,
                  faults: seq<Option<string>>, i: nat)
    returns (row: ProfileRow, call: DbCall)
    requires BatchEnv(sel, launches, visits, faults) && i < |sel|
    requires crawler.driver.Some? <==> HadBefore(sel, launches, faults, i)
    requires crawler.launches == (if crawler.driver.Some? then 1 else 0) && crawler.quits == 0
    requires crawler.backgroundTasks == {}
    modifies crawler
    ensures (row, call) == BatchItem(sel, launches, visits, faults, i)
    ensures crawler.driver.Some? <==> HadBefore(sel, launches, faults, i + 1)
    ensures crawler.launches == (if crawler.driver.Some? then 1 else 0) && crawler.quits == 0
    ensures crawler.backgroundTasks == {}
  {
    var inf := sel[i];
    var name := DisplayName(inf);
    call := NoCall;
    if faults[i].Some? {
      row := ProfileRow(name, inf.platform, inf.snsId, NotApplicable, 0, 0, Error, faults[i].value, []);
    } else if inf.platform == Instagram {
      var url := ProfileUrl(inf.snsId);
      var res := crawler.CrawlProfile(url, launches[i], visits[i]);
      if res.status == Success {
        call := UpdateCall(inf.id, CrawledOf(res));
      }
      row := ProfileRow(name, inf.platform, inf.snsId, url, res.followers, res.posts, res.status, res.error.GetOr([]), []);
    } else {
      row := ProfileRow(name, inf.platform, inf.snsId, NotApplicable, 0, 0, Error, UnsupportedError(inf.platform), []);
    }
  }

  /** The loop over the selected influencers with one shared crawler, closed
      at the end: one row per influencer in selection order, at most one
      browser launched, and that one quit. */
  method CrawlProfiles(sel: seq<Influencer>, launches: seq<Launch>, visits: seq<Visit>, faults: seq<Option<string>>)
    returns (rows: seq<ProfileRow>, calls: seq<DbCall>, crawler: InstagramCrawler)
    requires BatchEnv(sel, launches, visits, faults)
    ensures |rows| == |sel| && |calls| == |sel|
    ensures forall i :: 0 <= i < |sel| ==> (rows[i], calls[i]) == BatchItem(sel, launches, visits, faults, i)
    ensures crawler.driver.None? && crawler.backgroundTasks == {}
    ensures crawler.launches == crawler.quits && crawler.launches <= 1
  {
    crawler := new InstagramCrawler();
    rows := [];
    calls := [];
    var i := 0;
    while i < |sel|
      invariant 0 <= i <= |sel| && |rows| == i && |calls| == i
      invariant forall j :: 0 <= j < i ==> (rows[j], calls[j]) == BatchItem(sel, launches, visits, faults, j)
      invariant crawler.driver.Some? <==> HadBefore(sel, launches, faults, i)
      invariant crawler.launches == (if crawler.driver.Some? then 1 else 0) && crawler.quits == 0
      invariant crawler.backgroundTasks == {}
    {
      var row, call := CrawlOne(crawler, sel, launches, visits, faults, i);
      rows := rows + [row];
      calls := calls + [call];
      i := i + 1;
    }
    var _ := crawler.CloseDriver();
  }

  // ---------------------------------------------------------------------------
  // The tally after the profile batch (src/ui/project_components.py:683-706)

  /** Success rows whose save succeeded, among the first `n`. */
  function SavedSuccesses(rows: seq<ProfileRow>, saved: seq<bool>, n: nat): nat
    requires n <= |rows| && |saved| == |rows|
  {
    if n == 0 then 0 else SavedSuccesses(rows, saved, n - 1) + (if rows[n - 1].status == Success && saved[n - 1] then 1 else 0)
  }

  /** Rows that are not a success, among the first `n`. */
  function Failures(rows: seq<ProfileRow>, n: nat): nat
    requires n <= |rows|
  {
    if n == 0 then 0 else Failures(rows, n - 1) + (if rows[n - 1].status != Success then 1 else 0)
  }

  /** A row counts at most once: saved successes and failures together never exceed the rows. */
  lemma {:induction false} TallyBound(rows: seq<ProfileRow>, saved: seq<bool>, n: nat)
    requires n <= |rows| && |saved| == |rows|
    ensures SavedSuccesses(rows, saved, n) + Failures(rows, n) <= n
    ensures (forall j :: 0 <= j < n ==> saved[j]) ==> SavedSuccesses(rows, saved, n) + Failures(rows, n) == n
  {
    if n > 0 {
      TallyBound(rows, saved, n - 1);
    }
  }

  /** The loop that saves each success row (`saved[i]` is whether its save
      succeeded) and counts. */
  method ProfileTally(rows: seq<ProfileRow>, saved: seq<bool>) returns (successful: nat, failed: nat)
    requires |saved| == |rows|
    ensures successful == SavedSuccesses(rows, saved, |rows|) && failed == Failures(rows, |rows|)
    ensures successful + failed <= |rows|
  {
    successful, failed := 0, 0;
    var i := 0;
    while i < |rows|
      invariant 0 <= i <= |rows|
      invariant successful == SavedSuccesses(rows, saved, i) && failed == Failures(rows, i)
    {
      if rows[i].status == Success {
        if saved[i] {
          successful := successful + 1;
        }
      } else {
        failed := failed + 1;
      }
      i := i + 1;
    }
    TallyBound(rows, saved, |rows|);
  }

  // ---------------------------------------------------------------------------
  // Tags (src/ui/project_components.py:809, 1012)

  /** `[t.strip() for t in parts if t.strip()]`. */
  function KeepStripped(parts: seq<string>): (tags: seq<string>)
    ensures |tags| <= |parts|
  {
    if parts == [] then []
    else if Strip(parts[0]) == [] then KeepStripped(parts[1..])
    else [Strip(parts[0])] + KeepStripped(parts[1..])
  }

  /** Every kept tag is non-empty and stripped. */
  lemma {:induction false} KeptStripped(parts: seq<string>)
    ensures forall t :: t in KeepStripped(parts) ==> t != [] && IsStripped(t)
  {
    if parts != [] {
      KeptStripped(parts[1..]);
      var head := Strip(parts[0]);
      assert IsStripped(head);
      if head != [] {
        assert KeepStripped(parts) == [head] + KeepStripped(parts[1..]);
      }
    }
  }

  /** The characters of `s.strip()` come from `s`. */
  lemma StripInside(s: string)
    ensures forall x :: x in Strip(s) ==> x in s
  {
    var l := StripLeft(s);
    assert forall x :: x in l ==> x in s;
    assert forall x :: x in StripRight(l) ==> x in l;
  }

  lemma {:induction false} KeepStrippedInside(parts: seq<string>, c: char)
    requires forall k :: 0 <= k < |parts| ==> c !in parts[k]
    ensures forall k :: 0 <= k < |KeepStripped(parts)| ==> c !in KeepStripped(parts)[k]
  {
    if parts != [] {
      StripInside(parts[0]);
      KeepStrippedInside(parts[1..], c);
    }
  }

  /** The tags of a comma-separated input: `None` for an empty input, else
      every non-blank piece, stripped, in input order. */
  function ParseTags(input: string): (r: Option<seq<string>>)
    ensures r.None? <==> input == []
    ensures r.Some? ==> r.value == KeepStripped(Split(input, ','))
    ensures r.Some? ==> forall k :: 0 <= k < |r.value| ==> r.value[k] != [] && IsStripped(r.value[k]) && ',' !in r.value[k]
  {
    if input == [] then None
    else
      var tags := KeepStripped(Split(input, ','));
      KeepStrippedInside(Split(input, ','), ',');
      KeptStripped(Split(input, ','));
      assert forall k :: 0 <= k < |tags| ==> tags[k] in tags;
      Some(tags)
  }

  /** A tag list as the edit form shows it: `", ".join(tags)`, or "" for none. */
  function ShownTags(tags: seq<string>): string {
    if tags == [] then [] else Join(tags, ", ")
  }

  /** Proper tags: non-empty, no surrounding whitespace, no comma. */
  predicate ProperTags(tags: seq<string>) {
    forall k :: 0 <= k < |tags| ==> tags[k] != [] && IsStripped(tags[k]) && ',' !in tags[k]
  }

  /** The pieces `", ".join(tags).split(",")` yields: the first tag, then each other one behind a space. */
  function Pieces(tags: seq<string>): seq<string>
    requires tags != []
  {
    [tags[0]] + Spaced(tags[1..])
  }

  lemma PiecesProper(tags: seq<string>)
    requires tags != [] && ProperTags(tags)
    ensures forall k :: 0 <= k < |Pieces(tags)| ==> ',' !in Pieces(tags)[k]
    ensures KeepStripped(Pieces(tags)) == tags
  {
    var pieces := Pieces(tags);
    forall k | 0 <= k < |pieces| ensures ',' !in pieces[k] {
      if k > 0 {
        assert pieces[k] == " " + tags[k];
      }
    }
    KeepSpaced(tags[1..]);
    assert Strip(tags[0]) == tags[0];
    assert pieces[1..] == Spaced(tags[1..]);
  }

  /** Showing tags in the edit form and parsing the field back gives the same
      tags, and an empty list comes back as `None`. */
  lemma TagsRoundTrip(tags: seq<string>)
    requires ProperTags(tags)
    ensures ParseTags(ShownTags(tags)) == if tags == [] then None else Some(tags)
  {
    if tags != [] {
      var pieces := Pieces(tags);
      JoinSpaced(tags);
      PiecesProper(tags);
      SplitJoin(pieces, ',');
      JoinLength(pieces, ",");
    }
  }

  lemma JoinLength(parts: seq<string>, sep: string)
    requires parts != []
    ensures |Join(parts, sep)| >= |parts[0]|
  {
  }

  /** Each tag with the space `", "` leaves after the comma. */
  function Spaced(ts: seq<string>): (r: seq<string>)
    ensures |r| == |ts| && forall k :: 0 <= k < |ts| ==> r[k] == " " + ts[k]
  {
    seq(|ts|, k requires 0 <= k < |ts| => " " + ts[k])
  }

  lemma JoinFirst(a: string, x: string, rest: seq<string>, sep: string)
    ensures Join([a + x] + rest, sep) == a + Join([x] + rest, sep)
  {
    if rest != [] {
      assert ([a + x] + rest)[1..] == rest && ([x] + rest)[1..] == rest;
    }
  }

  lemma {:induction false} JoinSpaced(ts: seq<string>)
    requires |ts| >= 1
    ensures Join(ts, ", ") == Join([ts[0]] + Spaced(ts[1..]), ",")
    decreases |ts|
  {
    if |ts| > 1 {
      var tail := ts[1..];
      JoinSpaced(tail);
      assert tail[1..] == ts[2..];
      assert Spaced(tail) == [" " + tail[0]] + Spaced(ts[2..]);
      JoinFirst(" ", tail[0], Spaced(ts[2..]), ",");
      assert ([ts[0]] + Spaced(tail))[1..] == Spaced(tail);
    }
  }

  lemma {:induction false} KeepSpaced(ts: seq<string>)
    requires ProperTags(ts)
    ensures KeepStripped(Spaced(ts)) == ts
  {
    if ts != [] {
      var s := Spaced(ts);
      assert s[1..] == Spaced(ts[1..]);
      KeepSpaced(ts[1..]);
      StripSpace(ts[0]);
    }
  }

  /** Stripping removes the one space `", "` leaves in front of a proper tag. */
  lemma StripSpace(t: string)
    requires t != [] && IsStripped(t)
    ensures Strip(" " + t) == t
  {
    assert (" " + t)[1..] == t;
    assert StripLeft(" " + t) == StripLeft(t) == t;
  }

  // ---------------------------------------------------------------------------
  // The campaign filter (src/ui/project_components.py:876-881)

  datatype Campaign = Campaign(id: string, name: string, kind: string, status: string)

  /** The choice of a filter box that lets everything through. */
  const AnyChoice: string := "전체"

  predicate Chosen(choice: string, value: string) {
    choice == AnyChoice || value == choice
  }

  /** `[c for c in cs if c['campaign_type'] == kind]`. */
  function ByKind(cs: seq<Campaign>, kind: string): seq<Campaign> {
    if cs == [] then [] else (if cs[0].kind == kind then [cs[0]] else []) + ByKind(cs[1..], kind)
  }

  /** `[c for c in cs if c['status'] == status]`. */
  function ByStatus(cs: seq<Campaign>, status: string): seq<Campaign> {
    if cs == [] then [] else (if cs[0].status == status then [cs[0]] else []) + ByStatus(cs[1..], status)
  }

  /** The campaigns both choices let through, in list order. */
  function Shown(cs: seq<Campaign>, kind: string, status: string): (r: seq<Campaign>)
    ensures |r| <= |cs|
    ensures forall c :: c in r <==> c in cs && Chosen(kind, c.kind) && Chosen(status, c.status)
  {
    if cs == [] then []
    else (if Chosen(kind, cs[0].kind) && Chosen(status, cs[0].status) then [cs[0]] else []) + Shown(cs[1..], kind, status)
  }

  /** `filtered_campaigns` after the type filter, when its box is not "전체". */
  function KindPass(cs: seq<Campaign>, kind: string): seq<Campaign> {
    if kind != AnyChoice then ByKind(cs, kind) else cs
  }

  /** `filtered_campaigns` after the status filter, when its box is not "전체". */
  function StatusPass(cs: seq<Campaign>, status: string): seq<Campaign> {
    if status != AnyChoice then ByStatus(cs, status) else cs
  }

  lemma {:induction false} TwoPasses(cs: seq<Campaign>, kind: string, status: string)
    ensures StatusPass(KindPass(cs, kind), status) == Shown(cs, kind, status)
  {
    if cs != [] {
      TwoPasses(cs[1..], kind, status);
      var c := cs[0];
      var a := KindPass(cs[1..], kind);
      var head := if Chosen(kind, c.kind) then [c] else [];
      assert KindPass(cs, kind) == head + a;
      if Chosen(kind, c.kind) {
        assert (head + a)[1..] == a;
      } else {
        assert head + a == a;
      }
    }
  }

  /** The campaigns shown: those of the chosen type, and of those the ones
      with the chosen status. */
  function FilterCampaigns(cs: seq<Campaign>, kind: string, status: string): (r: seq<Campaign>)
    ensures r == Shown(cs, kind, status)
    ensures forall c :: c in r <==> c in cs && Chosen(kind, c.kind) && Chosen(status, c.status)
  {
    TwoPasses(cs, kind, status);
    StatusPass(KindPass(cs, kind), status)
  }

  // ---------------------------------------------------------------------------
  // Participation pages (src/ui/project_components.py:1337-1348)

  const ItemsPerPage: nat := 20

  /** `(n - 1) // 20 + 1`: the fewest pages of 20 that hold `n` items. */
  function TotalPages(n: nat): (t: nat)
    requires n >= 1
    ensures t >= 1 && ItemsPerPage * (t - 1) < n <= ItemsPerPage * t
  {
    (n - 1) / ItemsPerPage + 1
  }

  function Min(a: int, b: int): int {
    if a <= b then a else b
  }

  /** The participations on page `p` (from 0): the list itself when it fits
      one page, else the slice `[20p, min(20p + 20, n))`. */
  function PageItems<T>(xs: seq<T>, p: nat): (page: seq<T>)
    requires |xs| >= 1 && p < TotalPages(|xs|)
    ensures 1 <= |page| <= ItemsPerPage
    ensures page == xs[ItemsPerPage * p .. Min(ItemsPerPage * p + ItemsPerPage, |xs|)]
  {
    if TotalPages(|xs|) > 1 then
      xs[ItemsPerPage * p .. Min(ItemsPerPage * p + ItemsPerPage, |xs|)]
    else
      assert xs[0..|xs|] == xs;
      xs
  }

  /** Pages `0 .. k-1` one after another. */
  function PagesUpTo<T>(xs: seq<T>, k: nat): seq<T>
    requires |xs| >= 1 && k <= TotalPages(|xs|)
  {
    if k == 0 then [] else PagesUpTo(xs, k - 1) + PageItems(xs, k - 1)
  }

  lemma {:induction false} PagesUpToPrefix<T>(xs: seq<T>, k: nat)
    requires |xs| >= 1 && k <= TotalPages(|xs|)
    ensures PagesUpTo(xs, k) == xs[..Min(ItemsPerPage * k, |xs|)]
  {
    if k > 0 {
      PagesUpToPrefix(xs, k - 1);
      var a := Min(ItemsPerPage * (k - 1), |xs|);
      assert a == ItemsPerPage * (k - 1);
      assert xs[..a] + xs[a..Min(ItemsPerPage * k, |xs|)] == xs[..Min(ItemsPerPage * k, |xs|)];
    }
  }

  /** The pages partition the list: read one after another they give it back. */
  lemma PagesPartition<T>(xs: seq<T>)
    requires |xs| >= 1
    ensures PagesUpTo(xs, TotalPages(|xs|)) == xs
  {
    PagesUpToPrefix(xs, TotalPages(|xs|));
    assert xs[..|xs|] == xs;
  }

  // ---------------------------------------------------------------------------
  // Content links of a participation (src/ui/project_components.py:1532-1566)

  /** The link list the edit form keeps in the session state. */
  class ContentLinks {
    var links: seq<string>

    /** `participation['content_links'] or []`. */
    constructor(stored: Option<seq<string>>)
      ensures links == stored.GetOr([])
    {
      links := stored.GetOr([]);
    }

    /** The minus button of link `i`: the entry is marked `None`, then the
        marked entries are dropped. */
    method Delete(i: nat)
      requires i < |links|
      modifies this
      ensures links == old(links)[..i] + old(links)[i + 1..]
    {
      var current := links;
      var marked: seq<Option<string>> := seq(|current|, k requires 0 <= k < |current| => Some(current[k]));
      marked := marked[i := None];
      var kept: seq<string> := [];
      var j := 0;
      while j < |marked|
        invariant 0 <= j <= |marked| == |current|
        invariant forall k :: 0 <= k < |marked| ==> marked[k] == if k == i then None else Some(current[k])
        invariant kept == if j <= i then current[..j] else current[..i] + current[i + 1..j]
      {
        if marked[j].Some? {
          kept := kept + [marked[j].value];
        }
        if j < i {
          assert current[..j + 1] == current[..j] + [current[j]];
        } else if j == i {
          assert current[i + 1..j + 1] == [];
        } else {
          assert current[i + 1..j + 1] == current[i + 1..j] + [current[j]];
        }
        j := j + 1;
      }
      links := kept;
    }

    /** The plus button: the stripped link is appended when it is not blank. */
    method Add(newLink: Option<string>)
      modifies this
      ensures Filled(newLink) ==> links == old(links) + [Strip(newLink.value)]
      ensures !Filled(newLink) ==> links == old(links)
    {
      if newLink.Some? && newLink.value != [] && Strip(newLink.value) != [] {
        links := links + [Strip(newLink.value)];
      }
    }
  }
}
