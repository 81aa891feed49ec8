/** `InstagramCrawler` (src/instagram_crawler.py): the browser it owns, the
    lazy launch, the readiness ladder, the mapping of every failure to a
    `timeout` or `error` result, and `close_driver`. The browser itself is
    abstracted: a launch attempt is a `Launch`, a page visit a `Visit` or a
    `PostVisit`, each decided by the environment. */
module Crawler {
  import opened Wrappers
  import opened Text
  import opened Page
  import opened ProfileExtract
  import opened PostExtract

  // ---------------------------------------------------------------------------
  // Launching the browser (src/instagram_crawler.py:41-156)

  const UserAgents: seq<string> := [
    "Mozilla/5.0 (Windows NT 10.0; Win64; x64) AppleWebKit/537.36 (KHTML, like Gecko) Chrome/120.0.0.0 Safari/537.36",
    "Mozilla/5.0 (Windows NT 10.0; Win64; x64) AppleWebKit/537.36 (KHTML, like Gecko) Chrome/119.0.0.0 Safari/537.36",
    "Mozilla/5.0 (Macintosh; Intel Mac OS X 10_15_7) AppleWebKit/537.36 (KHTML, like Gecko) Chrome/120.0.0.0 Safari/537.36",
    "Mozilla/5.0 (X11; Linux x86_64) AppleWebKit/537.36 (KHTML, like Gecko) Chrome/120.0.0.0 Safari/537.36"
  ]

  /** The anti-detection scripts, run one by one once the browser is up. */
  const StealthScripts: seq<string> := [
    "Object.defineProperty(navigator, 'webdriver', {get: () => undefined})",
    "Object.defineProperty(navigator, 'plugins', {get: () => [1, 2, 3, 4, 5]})",
    "Object.defineProperty(navigator, 'languages', {get: () => ['ko-KR', 'ko', 'en-US', 'en']})",
    "Object.defineProperty(navigator, 'permissions', {get: () => ({query: () => Promise.resolve({state: 'granted'})})})",
    "Object.defineProperty(navigator, 'platform', {get: () => 'Win32'})",
    "Object.defineProperty(navigator, 'hardwareConcurrency', {get: () => 4})",
    "Object.defineProperty(navigator, 'deviceMemory', {get: () => 8})",
    "Object.defineProperty(navigator, 'maxTouchPoints', {get: () => 0})",
    "Object.defineProperty(navigator, 'vendor', {get: () => 'Google Inc.'})",
    "Object.defineProperty(navigator, 'vendorSub', {get: () => ''})",
    "Object.defineProperty(navigator, 'productSub', {get: () => '20030107'})",
    "Object.defineProperty(navigator, 'appName', {get: () => 'Netscape'})",
    "Object.defineProperty(navigator, 'appVersion', {get: () => '5.0 (Windows NT 10.0; Win64; x64) AppleWebKit/537.36 (KHTML, like Gecko) Chrome/120.0.0.0 Safari/537.36'})",
    "Object.defineProperty(navigator, 'userAgent', {get: () => arguments[0]})",
    "delete navigator.__proto__.webdriver"
  ]

  /** One `execute_script` call: a script mentioning `userAgent` is passed
      the chosen user agent as its argument. */
  datatype Injection = Injection(script: string, arg: Option<string>)

  function InjectionOf(script: string, ua: string): (r: Injection)
    ensures r.script == script
    ensures r.arg.Some? <==> Contains(script, "userAgent")
    ensures r.arg.Some? ==> r.arg.value == ua
  {
    if Contains(script, "userAgent") then Injection(script, Some(ua)) else Injection(script, None)
  }

  /** The injections that ran, in order, when `ok[i]` says whether script `i`
      ran without raising. */
  function Injected(scripts: seq<string>, ua: string, ok: seq<bool>): seq<Injection>
    requires |ok| == |scripts|
  {
    if scripts == [] then []
    else
      var n := |scripts| - 1;
      Injected(scripts[..n], ua, ok[..n]) + (if ok[n] then [InjectionOf(scripts[n], ua)] else [])
  }

  function CountTrue(ok: seq<bool>): nat {
    if ok == [] then 0 else CountTrue(ok[..|ok| - 1]) + (if ok[|ok| - 1] then 1 else 0)
  }

  /** Exactly the scripts that did not raise ran, each in its place. */
  lemma {:induction false} InjectedRan(scripts: seq<string>, ua: string, ok: seq<bool>)
    requires |ok| == |scripts|
    ensures |Injected(scripts, ua, ok)| == CountTrue(ok)
    ensures forall inj :: inj in Injected(scripts, ua, ok) <==>
              exists i :: 0 <= i < |scripts| && ok[i] && inj == InjectionOf(scripts[i], ua)
  {
    if scripts != [] {
      var n := |scripts| - 1;
      InjectedRan(scripts[..n], ua, ok[..n]);
      forall inj
        ensures inj in Injected(scripts, ua, ok) <==>
                exists i :: 0 <= i < |scripts| && ok[i] && inj == InjectionOf(scripts[i], ua)
      {
        if inj in Injected(scripts[..n], ua, ok[..n]) {
          var i :| 0 <= i < n && ok[..n][i] && inj == InjectionOf(scripts[..n][i], ua);
          assert ok[i] && scripts[i] == scripts[..n][i];
        }
        if exists i :: 0 <= i < |scripts| && ok[i] && inj == InjectionOf(scripts[i], ua) {
          var i :| 0 <= i < |scripts| && ok[i] && inj == InjectionOf(scripts[i], ua);
          if i < n {
            assert ok[..n][i] && scripts[..n][i] == scripts[i];
          }
        }
      }
    }
  }

  /** When every script runs, the injections are the scripts in order. */
  lemma {:induction false} InjectedAll(scripts: seq<string>, ua: string, ok: seq<bool>)
    requires |ok| == |scripts|
    requires forall i :: 0 <= i < |ok| ==> ok[i]
    ensures |Injected(scripts, ua, ok)| == |scripts|
    ensures forall i :: 0 <= i < |scripts| ==> Injected(scripts, ua, ok)[i] == InjectionOf(scripts[i], ua)
  {
    if scripts != [] {
      var n := |scripts| - 1;
      InjectedAll(scripts[..n], ua, ok[..n]);
    }
  }

  /** `for script in stealth_scripts: try: ... except: pass`. */
  method InjectStealth(scripts: seq<string>, ua: string, ok: seq<bool>) returns (ran: seq<Injection>)
    requires |ok| == |scripts|
    ensures ran == Injected(scripts, ua, ok)
  {
    ran := [];
    var i := 0;
    while i < |scripts|
      invariant 0 <= i <= |scripts|
      invariant ran == Injected(scripts[..i], ua, ok[..i])
    {
      if ok[i] {
        ran := ran + [InjectionOf(scripts[i], ua)];
      }
      assert scripts[..i + 1][..i] == scripts[..i];
      assert ok[..i + 1][..i] == ok[..i];
      i := i + 1;
    }
    assert scripts[..i] == scripts && ok[..i] == ok;
  }

  /** What the environment does to one `setup_driver` call: the browser comes
      up with user agent `uaPick` and script `i` runs iff `scriptsOk[i]`, or the
      launch raises with message `msg`. */
  datatype Launch = Launched(uaPick: nat, scriptsOk: seq<bool>) | LaunchFailed(msg: string)

  /** `random.choice` picks one of the user agents; every script either runs or raises. */
  predicate PossibleLaunch(l: Launch) {
    l.Launched? ==> l.uaPick < |UserAgents| && |l.scriptsOk| == |StealthScripts|
  }

  datatype Driver = Driver(userAgent: string, stealth: seq<Injection>)

  function DriverOf(l: Launch): Driver
    requires l.Launched? && PossibleLaunch(l)
  {
    Driver(UserAgents[l.uaPick], Injected(StealthScripts, UserAgents[l.uaPick], l.scriptsOk))
  }

  // ---------------------------------------------------------------------------
  // Results (src/instagram_crawler.py:570-641, 781-804)

  datatype Status = Success | Timeout | Error

  /** What the environment does to one visit: `execute_cdp_cmd` and `get`
      succeed and the page is `page`; or `get` runs out of its page-load
      time and raises a `TimeoutException` whose `str()` is `msg`; or one of
      them raises any other exception, whose `str()` is `msg`. */
  datatype Visit = Visit(page: Snapshot) | VisitTimedOut(msg: string) | VisitFailed(msg: string)

  /** A post visit also observes the page again after the refresh that precedes the DOM pass. */
  datatype PostVisit = PostVisit(page: Snapshot, refreshed: Snapshot) | PostVisitTimedOut(msg: string) | PostVisitFailed(msg: string)

  datatype ProfileResult = ProfileResult(
    url: string,
    imageUrl: string,
    name: string,
    posts: nat,
    followers: nat,
    bio: string,
    status: Status,
    error: Option<string>,
    pageSource: Option<string>,
    raw: Option<ProfileData>)

  datatype PostResult = PostResult(url: string, likes: nat, comments: nat, status: Status, error: Option<string>)

  /** Selenium's `str()` of an exception raised with message `msg`. */
  function SeleniumText(msg: string): string {
    "Message: " + msg + "\n"
  }

  const LoadTimeout: string := "페이지 로딩 시간 초과"
  const ProfileTimeoutPrefix: string := "페이지 로딩 시간 초과: "
  const ProfileErrorPrefix: string := "크롤링 중 오류 발생: "

  /** The fields of a profile result. */
  function FieldsOf(r: ProfileResult): ProfileData {
    ProfileData(r.imageUrl, r.name, r.posts, r.followers, r.bio)
  }

  function ProfileFailure(url: string, status: Status, msg: string): (r: ProfileResult)
    ensures r.url == url && r.status == status && r.error == Some(msg)
    ensures FieldsOf(r) == EmptyProfile && r.pageSource.None? && r.raw.None?
  {
    ProfileResult(url, [], [], 0, 0, [], status, Some(msg), None, None)
  }

  // ---------------------------------------------------------------------------
  // The readiness ladder (src/instagram_crawler.py:264-295)

  /** The tag the ladder settled on and the seconds spent on the waits that
      timed out before it, or the seconds spent when every wait timed out. */
  datatype Readiness = Ready(tag: Landmark, waited: nat) | NotReady(waited: nat)

  /** `main` for up to 10 s, then `body` for up to 10 s, then `html` for up to 5 s. */
  function Ladder(marks: set<Landmark>): (r: Readiness)
    ensures r.Ready? <==> (MainTag in marks || BodyTag in marks || HtmlTag in marks)
    ensures r.Ready? ==> r.tag in marks
    ensures r.Ready? && r.tag != MainTag ==> MainTag !in marks
    ensures r.Ready? && r.tag == HtmlTag ==> BodyTag !in marks
    ensures r.waited <= 25
    ensures r.NotReady? ==> r.waited == 25
  {
    if MainTag in marks then Ready(MainTag, 0)
    else if BodyTag in marks then Ready(BodyTag, 10)
    else if HtmlTag in marks then Ready(HtmlTag, 20)
    else NotReady(25)
  }

  // ---------------------------------------------------------------------------
  // The two crawls as functions of what the environment does

  /** `crawl_instagram_profile`: a browser exists already (`hadDriver`) or is launched by `launch`. */
  function ProfileCrawl(hadDriver: bool, launch: Launch, visit: Visit, url: string): (r: ProfileResult)
    requires PossibleLaunch(launch)
    ensures r.url == url
    ensures r.status == Success <==>
              (hadDriver || launch.Launched?) && visit.Visit? && Ladder(visit.page.landmarks).Ready?
    ensures r.status == Timeout <==>
              (hadDriver || launch.Launched?) &&
              (visit.VisitTimedOut? || (visit.Visit? && Ladder(visit.page.landmarks).NotReady?))
    ensures r.status == Timeout && visit.VisitTimedOut? ==> r.error == Some(ProfileTimeoutPrefix + visit.msg)
    ensures r.status == Timeout && visit.Visit? ==> r.error == Some(ProfileTimeoutPrefix + SeleniumText(LoadTimeout))
    ensures r.status == Error && !hadDriver && launch.LaunchFailed? ==> r.error == Some(ProfileErrorPrefix + launch.msg)
    ensures r.status == Error && (hadDriver || launch.Launched?) ==> r.error == Some(ProfileErrorPrefix + visit.msg)
    ensures r.status != Success ==> FieldsOf(r) == EmptyProfile && r.pageSource.None? && r.raw.None?
    ensures r.status == Success ==>
              r.error.None? && r.raw == Some(ProfileOf(visit.page)) && FieldsOf(r) == r.raw.value &&
              r.pageSource == Some(visit.page.source)
  {
    if !hadDriver && launch.LaunchFailed? then ProfileFailure(url, Error, ProfileErrorPrefix + launch.msg)
    else if visit.VisitTimedOut? then ProfileFailure(url, Timeout, ProfileTimeoutPrefix + visit.msg)
    else if visit.VisitFailed? then ProfileFailure(url, Error, ProfileErrorPrefix + visit.msg)
    else if Ladder(visit.page.landmarks).NotReady? then
      ProfileFailure(url, Timeout, ProfileTimeoutPrefix + SeleniumText(LoadTimeout))
    else
      var d := ProfileOf(visit.page);
      ProfileResult(url, d.imageUrl, d.name, d.posts, d.followers, d.bio, Success, None, Some(visit.page.source), Some(d))
  }

  /** `crawl_instagram_post`: only `main` is waited for (25 s); the counts are
      `PostCounts` of the loaded page and the refreshed one. */
  function PostCrawl(hadDriver: bool, launch: Launch, visit: PostVisit, url: string): (r: PostResult)
    requires PossibleLaunch(launch)
    ensures r.url == url
    ensures r.status == Success <==>
              (hadDriver || launch.Launched?) && visit.PostVisit? && MainTag in visit.page.landmarks
    ensures r.status == Timeout <==>
              (hadDriver || launch.Launched?) &&
              (visit.PostVisitTimedOut? || (visit.PostVisit? && MainTag !in visit.page.landmarks))
    ensures r.status == Timeout ==> r.error == Some(LoadTimeout)
    ensures r.status == Error && !hadDriver && launch.LaunchFailed? ==> r.error == Some(launch.msg)
    ensures r.status == Error && (hadDriver || launch.Launched?) ==> r.error == Some(visit.msg)
    ensures r.status != Success ==> r.likes == 0 && r.comments == 0
    ensures r.status == Success ==>
              r.error.None? && Counts(r.likes, r.comments) == PostCounts(visit.page, visit.refreshed)
  {
    if !hadDriver && launch.LaunchFailed? then PostResult(url, 0, 0, Error, Some(launch.msg))
    else if visit.PostVisitTimedOut? then PostResult(url, 0, 0, Timeout, Some(LoadTimeout))
    else if visit.PostVisitFailed? then PostResult(url, 0, 0, Error, Some(visit.msg))
    else if MainTag !in visit.page.landmarks then PostResult(url, 0, 0, Timeout, Some(LoadTimeout))
    else
      var c := PostCounts(visit.page, visit.refreshed);
      PostResult(url, c.likes, c.comments, Success, None)
  }

  // ---------------------------------------------------------------------------
  // The crawler object

  class InstagramCrawler {
    var driver: Option<Driver>
    var backgroundTasks: set<nat>
    /** browsers launched and browsers quit over the object's life */
    ghost var launches: nat
    ghost var quits: nat

    /** Every browser launched has been quit, except the one `driver` holds. */
    ghost predicate Valid()
      reads this
    {
      launches == quits + (if driver.Some? then 1 else 0)
    }

    constructor()
      ensures driver.None? && backgroundTasks == {}
      ensures launches == 0 && quits == 0 && Valid()
    {
      driver := None;
      backgroundTasks := {};
      launches := 0;
      quits := 0;
    }

    /** `setup_driver`: on success the new browser replaces `driver`. */
    method SetupDriver(launch: Launch) returns (failure: Option<string>)
      requires PossibleLaunch(launch)
      modifies this
      ensures launch.LaunchFailed? ==> failure == Some(launch.msg) && driver == old(driver) && launches == old(launches)
      ensures launch.Launched? ==> failure.None? && driver == Some(DriverOf(launch)) && launches == old(launches) + 1
      ensures quits == old(quits) && backgroundTasks == old(backgroundTasks)
      ensures old(driver).None? && old(Valid()) ==> Valid()
    {
      if launch.LaunchFailed? {
        return Some(launch.msg);
      }
      var ua := UserAgents[launch.uaPick];
      var ran := InjectStealth(StealthScripts, ua, launch.scriptsOk);
      driver := Some(Driver(ua, ran));
      launches := launches + 1;
      failure := None;
    }

    /** `if not self.driver: self.setup_driver()`. */
    method EnsureDriver(launch: Launch) returns (failure: Option<string>)
      requires PossibleLaunch(launch)
      modifies this
      ensures old(driver).Some? ==> failure.None? && driver == old(driver) && launches == old(launches)
      ensures old(driver).None? && launch.LaunchFailed? ==> failure == Some(launch.msg) && driver.None? && launches == old(launches)
      ensures old(driver).None? && launch.Launched? ==> failure.None? && driver == Some(DriverOf(launch)) && launches == old(launches) + 1
      ensures quits == old(quits) && backgroundTasks == old(backgroundTasks)
      ensures old(Valid()) ==> Valid()
    {
      failure := None;
      if driver.None? {
        failure := SetupDriver(launch);
      }
    }

    method CrawlProfile(url: string, launch: Launch, visit: Visit) returns (r: ProfileResult)
      requires PossibleLaunch(launch)
      modifies this
      ensures r == ProfileCrawl(old(driver).Some?, launch, visit, url)
      ensures old(driver).Some? ==> driver == old(driver)
      ensures old(driver).None? ==> driver == (if launch.Launched? then Some(DriverOf(launch)) else None)
      ensures quits == old(quits) && backgroundTasks == old(backgroundTasks)
      ensures old(Valid()) ==> Valid()
    {
      var failure := EnsureDriver(launch);
      if failure.Some? {
        return ProfileFailure(url, Error, ProfileErrorPrefix + failure.value);
      }
      if visit.VisitTimedOut? {
        return ProfileFailure(url, Timeout, ProfileTimeoutPrefix + visit.msg);
      }
      if visit.VisitFailed? {
        return ProfileFailure(url, Error, ProfileErrorPrefix + visit.msg);
      }
      var page := visit.page;
      if Ladder(page.landmarks).NotReady? {
        return ProfileFailure(url, Timeout, ProfileTimeoutPrefix + SeleniumText(LoadTimeout));
      }
      var d := ExtractProfile(page);
      r := ProfileResult(url, d.imageUrl, d.name, d.posts, d.followers, d.bio, Success, None, Some(page.source), Some(d));
    }

    method CrawlPost(url: string, launch: Launch, visit: PostVisit) returns (r: PostResult)
      requires PossibleLaunch(launch)
      modifies this
      ensures r == PostCrawl(old(driver).Some?, launch, visit, url)
      ensures old(driver).Some? ==> driver == old(driver)
      ensures old(driver).None? ==> driver == (if launch.Launched? then Some(DriverOf(launch)) else None)
      ensures quits == old(quits) && backgroundTasks == old(backgroundTasks)
      ensures old(Valid()) ==> Valid()
    {
      var failure := EnsureDriver(launch);
      if failure.Some? {
        return PostResult(url, 0, 0, Error, failure);
      }
      if visit.PostVisitTimedOut? {
        return PostResult(url, 0, 0, Timeout, Some(LoadTimeout));
      }
      if visit.PostVisitFailed? {
        return PostResult(url, 0, 0, Error, Some(visit.msg));
      }
      if MainTag !in visit.page.landmarks {
        return PostResult(url, 0, 0, Timeout, Some(LoadTimeout));
      }
      var c := ExtractPost(visit.page, visit.refreshed);
      r := PostResult(url, c.likes, c.comments, Success, None);
    }

    /** `close_driver`: every background task is cancelled, the set is
        cleared, and a browser that exists is quit (a failing `quit` is
        logged) and dropped. */
    method CloseDriver() returns (cancelled: set<nat>)
      modifies this
      ensures driver.None? && backgroundTasks == {}
      ensures cancelled == old(backgroundTasks)
      ensures quits == old(quits) + (if old(driver).Some? then 1 else 0)
      ensures launches == old(launches)
      ensures old(Valid()) ==> Valid() && launches == quits
    {
      cancelled := {};
      var pending := backgroundTasks;
      while pending != {}
        invariant pending + cancelled == old(backgroundTasks)
        invariant pending !! cancelled
        decreases |pending|
      {
        var task :| task in pending;
        cancelled := cancelled + {task};
        pending := pending - {task};
      }
      backgroundTasks := {};
      if driver.Some? {
        quits := quits + 1;
        driver := None;
      }
    }
  }

  /** Closing twice is closing once: the second call finds nothing to do. */
  method CloseTwice(c: InstagramCrawler) returns (second: set<nat>)
    modifies c
    ensures c.driver.None? && c.backgroundTasks == {}
    ensures second == {}
    ensures c.quits == old(c.quits) + (if old(c.driver).Some? then 1 else 0)
  {
    var first := c.CloseDriver();
    second := c.CloseDriver();
  }
}
