/** `batch_crawl_instagram_posts` (src/instagram_crawler.py:806-899): one
    result per spreadsheet row, in order, with progress reports and a
    cooldown between crawls. The crawl of each row is an oracle reply (what
    `crawl_instagram_post` returned, or the exception it raised), the
    cooldown draw of each row an input in [30, 60]; progress and sleeps are
    recorded as events. */
module Batch {
  import opened Wrappers
  import opened Text
  import opened Crawler

  /** A spreadsheet cell as pandas hands it over: missing or NaN, a string, or
      any other value, carried with its `str()`. */
  datatype Cell = Blank | Str(text: string) | NonStr(shown: string)

  /** A DataFrame row with its index label. */
  datatype Row = Row(index: nat, name: Cell, link: Cell)

  datatype Channel = Widgets | Callback

  /** Where progress goes: the three Streamlit widgets, the legacy callback, or nowhere. */
  datatype Reporting = Report(channel: Channel) | Silent

  datatype Event = Progress(channel: Channel, current: int, total: nat, message: string) | Sleep(seconds: nat)

  /** What crawling one row did: returned a result, or raised with a message. */
  datatype Reply = Returned(result: PostResult) | Raised(msg: string)

  datatype BatchRow = BatchRow(name: string, url: string, likes: nat, comments: nat, status: Status, error: string)

  const InvalidRowError: string := "Invalid URL or Empty Cell"
  const CompletedMessage: string := "크롤링 완료!"

  /** `row.get('name', f'Post_{index+1}')`, with NaN also falling back. */
  function RowName(r: Row): (name: string)
    ensures r.name.Blank? ==> name == "Post_" + NatToString(r.index + 1)
    ensures r.name.Str? ==> name == r.name.text
  {
    match r.name
    case Blank => "Post_" + NatToString(r.index + 1)
    case Str(s) => s
    case NonStr(shown) => shown
  }

  /** `url and isinstance(url, str) and 'instagram.com' in url`. */
  predicate ValidLink(c: Cell) {
    c.Str? && c.text != [] && Contains(c.text, "instagram.com")
  }

  /** The `url` of a row's result: the link when it is a string, else "". */
  function LinkText(c: Cell): string {
    if c.Str? then c.text else []
  }

  function CrawlingMessage(name: string): string {
    "크롤링 중: " + name
  }

  function CooldownMessage(seconds: nat): string {
    "쿨다운 중... " + NatToString(seconds) + "초 대기"
  }

  /** One report on the chosen channel; nothing when reporting is off. */
  function Notify(rep: Reporting, current: int, total: nat, message: string): (es: seq<Event>)
    ensures rep.Silent? ==> es == []
    ensures rep.Report? ==> es == [Progress(rep.channel, current, total, message)]
  {
    match rep
    case Silent => []
    case Report(ch) => [Progress(ch, current, total, message)]
  }

  // ---------------------------------------------------------------------------
  // Which channel the batch reports on (src/instagram_crawler.py:833-848)

  /** As written: the widgets only when the callback is also truthy. */
  function ReportingAsWritten(callback: bool, bar: bool, text: bool, status: bool): (rep: Reporting)
    ensures rep == Report(Widgets) <==> callback && bar && text && status
    ensures rep == Report(Callback) <==> callback && !(bar && text && status)
    ensures rep.Silent? <==> !callback
  {
    if callback && bar && text && status then Report(Widgets)
    else if callback then Report(Callback)
    else Silent
  }

  /** The widgets whenever all three are given, which is how the batch form
      calls the batch (no callback, three widgets). */
  function IntendedReporting(callback: bool, bar: bool, text: bool, status: bool): (rep: Reporting)
    ensures rep == Report(Widgets) <==> bar && text && status
    ensures rep == Report(Callback) <==> callback && !(bar && text && status)
    ensures rep.Silent? <==> !callback && !(bar && text && status)
  {
    if bar && text && status then Report(Widgets)
    else if callback then Report(Callback)
    else Silent
  }

  /** The batch form's call: as written, none of its three widgets is ever updated. */
  lemma WidgetsIgnored()
    ensures ReportingAsWritten(false, true, true, true) == Silent
    ensures IntendedReporting(false, true, true, true) == Report(Widgets)
  {
  }

  /** Whenever a callback is given, the two agree. */
  lemma ReportingAgrees(bar: bool, text: bool, status: bool)
    ensures ReportingAsWritten(true, bar, text, status) == IntendedReporting(true, bar, text, status)
  {
  }

  // ---------------------------------------------------------------------------
  // One row (src/instagram_crawler.py:813-897)

  /** The result row and the events of one row. `key` is the number the row
      is compared with `total - 1` by and reported under: the row's label
      as written, its position in the corrected batch. */
  function RowEffect(row: Row, key: int, total: nat, rep: Reporting, reply: Reply, cooldown: nat): (BatchRow, seq<Event>) {
    var name := RowName(row);
    if !ValidLink(row.link) then
      (BatchRow(name, LinkText(row.link), 0, 0, Error, InvalidRowError), [])
    else
      var url := row.link.text;
      var start := Notify(rep, key + 1, total, CrawlingMessage(name));
      match reply
      case Raised(msg) => (BatchRow(name, url, 0, 0, Error, msg), start)
      case Returned(res) =>
        var out := BatchRow(name, url, res.likes, res.comments, res.status, res.error.GetOr([]));
        if key < total - 1 then
          (out, start + Notify(rep, key + 1, total, CooldownMessage(cooldown)) + [Sleep(cooldown)])
        else
          (out, start + Notify(rep, total, total, CompletedMessage))
  }

  /** The key of the row at position `i`. */
  function Key(rows: seq<Row>, i: nat, byPosition: bool): int
    requires i < |rows|
  {
    if byPosition then i else rows[i].index
  }

  /** Replies and cooldown draws, one per row. */
  predicate Oracle(rows: seq<Row>, replies: seq<Reply>, cooldowns: seq<nat>) {
    |replies| == |rows| && |cooldowns| == |rows|
  }

  function Effect(rows: seq<Row>, i: nat, rep: Reporting, replies: seq<Reply>, cooldowns: seq<nat>, byPosition: bool): (BatchRow, seq<Event>)
    requires Oracle(rows, replies, cooldowns) && i < |rows|
  {
    RowEffect(rows[i], Key(rows, i, byPosition), |rows|, rep, replies[i], cooldowns[i])
  }

  function Results(rows: seq<Row>, rep: Reporting, replies: seq<Reply>, cooldowns: seq<nat>, byPosition: bool): seq<BatchRow>
    requires Oracle(rows, replies, cooldowns)
  {
    seq(|rows|, i requires 0 <= i < |rows| => Effect(rows, i, rep, replies, cooldowns, byPosition).0)
  }

  /** The events of the first `n` rows, in order. */
  function Events(rows: seq<Row>, n: nat, rep: Reporting, replies: seq<Reply>, cooldowns: seq<nat>, byPosition: bool): seq<Event>
    requires Oracle(rows, replies, cooldowns) && n <= |rows|
  {
    if n == 0 then []
    else Events(rows, n - 1, rep, replies, cooldowns, byPosition) + Effect(rows, n - 1, rep, replies, cooldowns, byPosition).1
  }

  /** The events of the whole batch as written, rows keyed by their labels. */
  function EventsAsWritten(rows: seq<Row>, rep: Reporting, replies: seq<Reply>, cooldowns: seq<nat>): seq<Event>
    requires Oracle(rows, replies, cooldowns)
  {
    Events(rows, |rows|, rep, replies, cooldowns, false)
  }

  /** The events of the whole batch, rows keyed by their positions. */
  function BatchEvents(rows: seq<Row>, rep: Reporting, replies: seq<Reply>, cooldowns: seq<nat>): seq<Event>
    requires Oracle(rows, replies, cooldowns)
  {
    Events(rows, |rows|, rep, replies, cooldowns, true)
  }

  // ---------------------------------------------------------------------------
  // The loop

  /** `for index, row in excel_data.iterrows(): ...` as written: each row is
      compared with `total_posts - 1`, and reported, under its DataFrame label. */
  method BatchCrawlPosts(rows: seq<Row>, rep: Reporting, replies: seq<Reply>, cooldowns: seq<nat>)
    returns (results: seq<BatchRow>, events: seq<Event>)
    requires Oracle(rows, replies, cooldowns)
    ensures results == Results(rows, rep, replies, cooldowns, false)
    ensures events == EventsAsWritten(rows, rep, replies, cooldowns)
  {
    results := [];
    events := [];
    var total := |rows|;
    var i := 0;
    while i < total
      invariant 0 <= i <= total
      invariant |results| == i
      invariant forall j :: 0 <= j < i ==> results[j] == Effect(rows, j, rep, replies, cooldowns, false).0
      invariant events == Events(rows, i, rep, replies, cooldowns, false)
    {
      var out, step := CrawlRow(rows[i], rows[i].index, total, rep, replies[i], cooldowns[i]);
      BatchStep(rows, rep, replies, cooldowns, false, i, results, events, out, step);
      results := results + [out];
      events := events + step;
      i := i + 1;
    }
    ResultsByRow(rows, rep, replies, cooldowns, false, results);
  }

  /** The same loop with each row keyed by its position, which is what the
      cooldown test "not the last post" means. */
  method BatchCrawlPostsCorrected(rows: seq<Row>, rep: Reporting, replies: seq<Reply>, cooldowns: seq<nat>)
    returns (results: seq<BatchRow>, events: seq<Event>)
    requires Oracle(rows, replies, cooldowns)
    ensures results == Results(rows, rep, replies, cooldowns, true)
    ensures events == BatchEvents(rows, rep, replies, cooldowns)
  {
    results := [];
    events := [];
    var total := |rows|;
    var index := 0;
    while index < total
      invariant 0 <= index <= total
      invariant |results| == index
      invariant forall j :: 0 <= j < index ==> results[j] == Effect(rows, j, rep, replies, cooldowns, true).0
      invariant events == Events(rows, index, rep, replies, cooldowns, true)
    {
      var out, step := CrawlRow(rows[index], index, total, rep, replies[index], cooldowns[index]);
      BatchStep(rows, rep, replies, cooldowns, true, index, results, events, out, step);
      results := results + [out];
      events := events + step;
      index := index + 1;
    }
    ResultsByRow(rows, rep, replies, cooldowns, true, results);
  }

  /** One turn of either loop keeps its invariant. */
  lemma BatchStep(rows: seq<Row>, rep: Reporting, replies: seq<Reply>, cooldowns: seq<nat>, byPosition: bool,
                  i: nat, results: seq<BatchRow>, events: seq<Event>, out: BatchRow, step: seq<Event>)
    requires Oracle(rows, replies, cooldowns) && i < |rows| && |results| == i
    requires forall j :: 0 <= j < i ==> results[j] == Effect(rows, j, rep, replies, cooldowns, byPosition).0
    requires events == Events(rows, i, rep, replies, cooldowns, byPosition)
    requires (out, step) == RowEffect(rows[i], Key(rows, i, byPosition), |rows|, rep, replies[i], cooldowns[i])
    ensures forall j :: 0 <= j < i + 1 ==> (results + [out])[j] == Effect(rows, j, rep, replies, cooldowns, byPosition).0
    ensures events + step == Events(rows, i + 1, rep, replies, cooldowns, byPosition)
  {
  }

  /** A sequence holding each row's result at that row's position is `Results`. */
  lemma ResultsByRow(rows: seq<Row>, rep: Reporting, replies: seq<Reply>, cooldowns: seq<nat>, byPosition: bool, results: seq<BatchRow>)
    requires Oracle(rows, replies, cooldowns) && |results| == |rows|
    requires forall j :: 0 <= j < |rows| ==> results[j] == Effect(rows, j, rep, replies, cooldowns, byPosition).0
    ensures results == Results(rows, rep, replies, cooldowns, byPosition)
  {
  }

  /** The body of the loop for one row, keyed by `key`. */
  method CrawlRow(row: Row, key: nat, total: nat, rep: Reporting, reply: Reply, cooldown: nat)
    returns (out: BatchRow, step: seq<Event>)
    ensures (out, step) == RowEffect(row, key, total, rep, reply, cooldown)
  {
    var name := RowName(row);
    step := [];
    if !ValidLink(row.link) {
      out := BatchRow(name, LinkText(row.link), 0, 0, Error, InvalidRowError);
    } else {
      var url := row.link.text;
      step := Notify(rep, key + 1, total, CrawlingMessage(name));
      if reply.Raised? {
        out := BatchRow(name, url, 0, 0, Error, reply.msg);
      } else {
        var res := reply.result;
        out := BatchRow(name, url, res.likes, res.comments, res.status, res.error.GetOr([]));
        if key < total - 1 {
          step := step + Notify(rep, key + 1, total, CooldownMessage(cooldown)) + [Sleep(cooldown)];
        } else {
          step := step + Notify(rep, total, total, CompletedMessage);
        }
      }
    }
  }

  // ---------------------------------------------------------------------------
  // Properties

  /** One result per row, in input order; an invalid row is an error row with
      zero counts, and a crawl that raised is an error row carrying its message. */
  lemma {:induction false} ResultsPerRow(rows: seq<Row>, rep: Reporting, replies: seq<Reply>, cooldowns: seq<nat>, byPosition: bool, i: nat)
    requires Oracle(rows, replies, cooldowns) && i < |rows|
    ensures |Results(rows, rep, replies, cooldowns, byPosition)| == |rows|
    ensures Results(rows, rep, replies, cooldowns, byPosition)[i].name == RowName(rows[i])
    ensures !ValidLink(rows[i].link) ==>
              Results(rows, rep, replies, cooldowns, byPosition)[i] ==
              BatchRow(RowName(rows[i]), LinkText(rows[i].link), 0, 0, Error, InvalidRowError)
    ensures ValidLink(rows[i].link) && replies[i].Raised? ==>
              Results(rows, rep, replies, cooldowns, byPosition)[i] ==
              BatchRow(RowName(rows[i]), rows[i].link.text, 0, 0, Error, replies[i].msg)
    ensures ValidLink(rows[i].link) && replies[i].Returned? ==>
              var r := Results(rows, rep, replies, cooldowns, byPosition)[i];
              var res := replies[i].result;
              r.url == rows[i].link.text && r.likes == res.likes && r.comments == res.comments &&
              r.status == res.status && r.error == res.error.GetOr([])
  {
  }

  /** The results depend neither on how rows are keyed nor on where progress
      goes: only the events do. */
  lemma ResultsKeyFree(rows: seq<Row>, rep: Reporting, rep': Reporting, replies: seq<Reply>, cooldowns: seq<nat>)
    requires Oracle(rows, replies, cooldowns)
    ensures Results(rows, rep, replies, cooldowns, false) == Results(rows, rep', replies, cooldowns, true)
  {
  }

  function SleepCount(es: seq<Event>): nat {
    if es == [] then 0 else SleepCount(es[..|es| - 1]) + (if es[|es| - 1].Sleep? then 1 else 0)
  }

  lemma {:induction false} SleepCountAppend(a: seq<Event>, b: seq<Event>)
    ensures SleepCount(a + b) == SleepCount(a) + SleepCount(b)
  {
    if b == [] {
      assert a + b == a;
    } else {
      var n := |b| - 1;
      assert (a + b)[..|a + b| - 1] == a + b[..n];
      assert (a + b)[|a + b| - 1] == b[n];
      SleepCountAppend(a, b[..n]);
    }
  }

  /** Whether the row at position `i` takes a cooldown. */
  predicate Cools(rows: seq<Row>, i: nat, replies: seq<Reply>, cooldowns: seq<nat>, byPosition: bool)
    requires Oracle(rows, replies, cooldowns) && i < |rows|
  {
    ValidLink(rows[i].link) && replies[i].Returned? && Key(rows, i, byPosition) < |rows| - 1
  }

  /** The number of the first `n` rows that take a cooldown. */
  function CoolCount(rows: seq<Row>, n: nat, replies: seq<Reply>, cooldowns: seq<nat>, byPosition: bool): nat
    requires Oracle(rows, replies, cooldowns) && n <= |rows|
  {
    if n == 0 then 0
    else CoolCount(rows, n - 1, replies, cooldowns, byPosition) + (if Cools(rows, n - 1, replies, cooldowns, byPosition) then 1 else 0)
  }

  lemma RowSleeps(rows: seq<Row>, i: nat, rep: Reporting, replies: seq<Reply>, cooldowns: seq<nat>, byPosition: bool)
    requires Oracle(rows, replies, cooldowns) && i < |rows|
    ensures SleepCount(Effect(rows, i, rep, replies, cooldowns, byPosition).1) ==
            (if Cools(rows, i, replies, cooldowns, byPosition) then 1 else 0)
  {
    var row := rows[i];
    var key := Key(rows, i, byPosition);
    var total := |rows|;
    if ValidLink(row.link) {
      var start := Notify(rep, key + 1, total, CrawlingMessage(RowName(row)));
      assert SleepCount(start) == 0 by {
        if rep.Report? {
          assert start[..0] == [];
        }
      }
      if replies[i].Returned? {
        if key < total - 1 {
          var mid := Notify(rep, key + 1, total, CooldownMessage(cooldowns[i]));
          assert SleepCount(mid) == 0 by {
            if rep.Report? {
              assert mid[..0] == [];
            }
          }
          SleepCountAppend(start, mid);
          SleepCountAppend(start + mid, [Sleep(cooldowns[i])]);
          assert [Sleep(cooldowns[i])][..0] == [];
        } else {
          var fin := Notify(rep, total, total, CompletedMessage);
          assert SleepCount(fin) == 0 by {
            if rep.Report? {
              assert fin[..0] == [];
            }
          }
          SleepCountAppend(start, fin);
        }
      }
    }
  }

  /** The sleeps of a batch are exactly its cooling rows. */
  lemma {:induction false} SleepsAreCooldowns(rows: seq<Row>, n: nat, rep: Reporting, replies: seq<Reply>, cooldowns: seq<nat>, byPosition: bool)
    requires Oracle(rows, replies, cooldowns) && n <= |rows|
    ensures SleepCount(Events(rows, n, rep, replies, cooldowns, byPosition)) == CoolCount(rows, n, replies, cooldowns, byPosition)
  {
    if n > 0 {
      var prev := Events(rows, n - 1, rep, replies, cooldowns, byPosition);
      var last := Effect(rows, n - 1, rep, replies, cooldowns, byPosition).1;
      assert Events(rows, n, rep, replies, cooldowns, byPosition) == prev + last;
      SleepsAreCooldowns(rows, n - 1, rep, replies, cooldowns, byPosition);
      SleepCountAppend(prev, last);
      RowSleeps(rows, n - 1, rep, replies, cooldowns, byPosition);
    }
  }

  /** With every row valid and every crawl returning, the first `n` rows cool
      down except the last row of the batch. */
  lemma {:induction false} CoolCountAllValid(rows: seq<Row>, n: nat, replies: seq<Reply>, cooldowns: seq<nat>)
    requires Oracle(rows, replies, cooldowns) && n <= |rows|
    requires forall i :: 0 <= i < |rows| ==> ValidLink(rows[i].link) && replies[i].Returned?
    ensures CoolCount(rows, n, replies, cooldowns, true) == if n == |rows| && n > 0 then n - 1 else n
  {
    if n > 0 {
      CoolCountAllValid(rows, n - 1, replies, cooldowns);
    }
  }

  /** n crawled rows sleep n - 1 times. */
  lemma CooldownsBetweenCrawls(rows: seq<Row>, rep: Reporting, replies: seq<Reply>, cooldowns: seq<nat>)
    requires Oracle(rows, replies, cooldowns) && |rows| > 0
    requires forall i :: 0 <= i < |rows| ==> ValidLink(rows[i].link) && replies[i].Returned?
    ensures SleepCount(BatchEvents(rows, rep, replies, cooldowns)) == |rows| - 1
  {
    SleepsAreCooldowns(rows, |rows|, rep, replies, cooldowns, true);
    CoolCountAllValid(rows, |rows|, replies, cooldowns);
  }

  /** Every sleep is one of the draws, so it lies in [30, 60] when the draws do. */
  lemma {:induction false} SleepsInRange(rows: seq<Row>, n: nat, rep: Reporting, replies: seq<Reply>, cooldowns: seq<nat>, byPosition: bool)
    requires Oracle(rows, replies, cooldowns) && n <= |rows|
    requires forall i :: 0 <= i < |cooldowns| ==> 30 <= cooldowns[i] <= 60
    ensures forall e :: e in Events(rows, n, rep, replies, cooldowns, byPosition) && e.Sleep? ==> 30 <= e.seconds <= 60
  {
    if n > 0 {
      SleepsInRange(rows, n - 1, rep, replies, cooldowns, byPosition);
      RowSleepIsDraw(rows, n - 1, rep, replies, cooldowns, byPosition);
      var prev := Events(rows, n - 1, rep, replies, cooldowns, byPosition);
      var last := Effect(rows, n - 1, rep, replies, cooldowns, byPosition).1;
      assert Events(rows, n, rep, replies, cooldowns, byPosition) == prev + last;
      forall e: Event | e in prev + last && e.Sleep? ensures 30 <= e.seconds <= 60 {
        if e !in prev {
          assert e in last;
        }
      }
    }
  }

  /** The one sleep a row may take is its own cooldown draw. */
  lemma RowSleepIsDraw(rows: seq<Row>, i: nat, rep: Reporting, replies: seq<Reply>, cooldowns: seq<nat>, byPosition: bool)
    requires Oracle(rows, replies, cooldowns) && i < |rows|
    ensures forall e :: e in Effect(rows, i, rep, replies, cooldowns, byPosition).1 && e.Sleep? ==> e.seconds == cooldowns[i]
  {
  }

  /** With the labels 0..n-1 of a fresh DataFrame, the batch as written is the corrected one. */
  lemma DenseLabels(rows: seq<Row>, rep: Reporting, replies: seq<Reply>, cooldowns: seq<nat>)
    requires Oracle(rows, replies, cooldowns)
    requires forall i :: 0 <= i < |rows| ==> rows[i].index == i
    ensures EventsAsWritten(rows, rep, replies, cooldowns) == BatchEvents(rows, rep, replies, cooldowns)
  {
    DenseEvents(rows, |rows|, rep, replies, cooldowns);
  }

  lemma {:induction false} DenseEvents(rows: seq<Row>, n: nat, rep: Reporting, replies: seq<Reply>, cooldowns: seq<nat>)
    requires Oracle(rows, replies, cooldowns) && n <= |rows|
    requires forall i :: 0 <= i < |rows| ==> rows[i].index == i
    ensures Events(rows, n, rep, replies, cooldowns, false) == Events(rows, n, rep, replies, cooldowns, true)
  {
    if n > 0 {
      DenseEvents(rows, n - 1, rep, replies, cooldowns);
      assert Key(rows, n - 1, false) == Key(rows, n - 1, true);
    }
  }

  /** The batch form hands over a filtered frame that keeps its labels: after
      the first row (label 0) has no link, the two remaining rows carry labels
      1 and 2 with a total of 2. As written, neither row takes the cooldown
      between the two crawls and the first already reports completion. */
  lemma SparseLabels()
    ensures var rows := [Row(1, Str("a"), Str("https://www.instagram.com/p/x/")),
                         Row(2, Str("b"), Str("https://www.instagram.com/p/y/"))];
            var replies := [Returned(PostResult("https://www.instagram.com/p/x/", 1, 1, Success, None)),
                            Returned(PostResult("https://www.instagram.com/p/y/", 2, 2, Success, None))];
            var cooldowns := [30, 30];
            CoolCount(rows, 2, replies, cooldowns, false) == 0 &&
            CoolCount(rows, 2, replies, cooldowns, true) == 1
  {
    var rows := [Row(1, Str("a"), Str("https://www.instagram.com/p/x/")),
                 Row(2, Str("b"), Str("https://www.instagram.com/p/y/"))];
    assert ValidLink(rows[0].link) && ValidLink(rows[1].link) by {
      assert "https://www.instagram.com/p/x/"[12..] == "instagram.com/p/x/";
      assert "https://www.instagram.com/p/y/"[12..] == "instagram.com/p/y/";
      ContainsAt("https://www.instagram.com/p/x/", "instagram.com", 12);
      ContainsAt("https://www.instagram.com/p/y/", "instagram.com", 12);
    }
  }

  /** When every row carries a label ahead of its position, as on a frame
      whose first sheet row was filtered out, the batch as written sleeps
      fewer times than the n - 1 cooldowns between its n crawls: the row
      before the last already has a label of at least `total - 1`. */
  lemma GappedLabelsSkipCooldown(rows: seq<Row>, rep: Reporting, replies: seq<Reply>, cooldowns: seq<nat>)
    requires Oracle(rows, replies, cooldowns) && |rows| >= 2
    requires forall i :: 0 <= i < |rows| ==> ValidLink(rows[i].link) && replies[i].Returned?
    requires forall i :: 0 <= i < |rows| ==> i < rows[i].index
    ensures SleepCount(BatchEvents(rows, rep, replies, cooldowns)) == |rows| - 1
    ensures SleepCount(EventsAsWritten(rows, rep, replies, cooldowns)) < |rows| - 1
  {
    var n := |rows|;
    CooldownsBetweenCrawls(rows, rep, replies, cooldowns);
    SleepsAreCooldowns(rows, n, rep, replies, cooldowns, false);
    assert !Cools(rows, n - 1, replies, cooldowns, false);
    assert !Cools(rows, n - 2, replies, cooldowns, false);
    assert CoolCount(rows, n, replies, cooldowns, false) == CoolCount(rows, n - 2, replies, cooldowns, false);
    LabelCoolsAtMost(rows, n - 2, replies, cooldowns);
    CoolCountAllValid(rows, n - 2, replies, cooldowns);
  }

  /** With labels never behind positions, a row that cools as written also cools by position. */
  lemma {:induction false} LabelCoolsAtMost(rows: seq<Row>, n: nat, replies: seq<Reply>, cooldowns: seq<nat>)
    requires Oracle(rows, replies, cooldowns) && n <= |rows|
    requires forall i :: 0 <= i < |rows| ==> i <= rows[i].index
    ensures CoolCount(rows, n, replies, cooldowns, false) <= CoolCount(rows, n, replies, cooldowns, true)
  {
    if n > 0 {
      LabelCoolsAtMost(rows, n - 1, replies, cooldowns);
    }
  }

  /** Without a channel the batch reports nothing: its only events are its sleeps. */
  lemma {:induction false} SilentOnlySleeps(rows: seq<Row>, n: nat, replies: seq<Reply>, cooldowns: seq<nat>, byPosition: bool)
    requires Oracle(rows, replies, cooldowns) && n <= |rows|
    ensures forall e :: e in Events(rows, n, Silent, replies, cooldowns, byPosition) ==> e.Sleep?
  {
    if n > 0 {
      SilentOnlySleeps(rows, n - 1, replies, cooldowns, byPosition);
      var prev := Events(rows, n - 1, Silent, replies, cooldowns, byPosition);
      var last := Effect(rows, n - 1, Silent, replies, cooldowns, byPosition).1;
      assert Events(rows, n, Silent, replies, cooldowns, byPosition) == prev + last;
      assert forall e :: e in last ==> e.Sleep?;
    }
  }
}
