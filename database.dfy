/** The payload rules of `DatabaseManager` (src/db/database.py) around a
    crawl: which crawled fields an update writes, the defaults of a new
    influencer, the exact-then-case-insensitive lookup, and the session and
    status updates. A table is a sequence of rows in the order a query
    returns them; timestamps are parameters. A dictionary with a fixed set of
    possible keys is a record whose optional fields are the keys that may be
    missing. */
module Database {
  import opened Wrappers
  import opened Text

  /** A stored column value: text, a number, a flag, or SQL null. */
  datatype Value = VStr(s: string) | VInt(n: int) | VBool(b: bool) | VNull

  /** The profile dictionary handed to the database: each key present (`Some`) or absent. */
  datatype Crawled = Crawled(
    name: Option<string>,
    followers: Option<int>,
    posts: Option<int>,
    text: Option<string>,
    imageUrl: Option<string>)

  /** `raw and raw.strip()`: present and not blank. */
  predicate Filled(o: Option<string>) {
    o.Some? && !IsBlank(o.value)
  }

  /** `d.get(key, 0) > 0`. */
  predicate Positive(o: Option<int>) {
    o.Some? && o.value > 0
  }

  /** Python truthiness of `d.get(key)` for a string. */
  predicate Truthy(o: Option<string>) {
    o.Some? && o.value != []
  }

  /** Some crawled field is worth writing. */
  predicate AnyField(d: Crawled) {
    Filled(d.name) || Positive(d.followers) || Positive(d.posts) || Filled(d.text) || Truthy(d.imageUrl)
  }

  // ---------------------------------------------------------------------------
  // update_influencer_data (src/db/database.py:481-519)

  /** The `update_data` dictionary: `updated_at` and the optional crawled columns. */
  datatype UpdateData = UpdateData(
    updatedAt: string,
    name: Option<string>,
    followers: Option<int>,
    posts: Option<int>,
    text: Option<string>,
    imageUrl: Option<string>)

  /** `len(update_data)`. */
  function Size(u: UpdateData): nat {
    1 + (if u.name.Some? then 1 else 0) + (if u.followers.Some? then 1 else 0)
      + (if u.posts.Some? then 1 else 0) + (if u.text.Some? then 1 else 0)
      + (if u.imageUrl.Some? then 1 else 0)
  }

  /** `u` holds exactly the columns the crawl filled: a name or bio only when it
      is not blank, and then stripped; a count only when positive; an image
      address only when non-empty. */
  ghost predicate UpdateFor(u: UpdateData, d: Crawled, now: string) {
    u.updatedAt == now &&
    (u.name.Some? <==> Filled(d.name)) && (u.name.Some? ==> u.name.value == Strip(d.name.value)) &&
    (u.followers.Some? <==> Positive(d.followers)) && (u.followers.Some? ==> u.followers == d.followers) &&
    (u.posts.Some? <==> Positive(d.posts)) && (u.posts.Some? ==> u.posts == d.posts) &&
    (u.text.Some? <==> Filled(d.text)) && (u.text.Some? ==> u.text.value == Strip(d.text.value)) &&
    (u.imageUrl.Some? <==> Truthy(d.imageUrl)) && (u.imageUrl.Some? ==> u.imageUrl == d.imageUrl)
  }

  /** `raw = d.get(key, '')`, then `raw.strip()` if `raw and raw.strip()`. */
  function StrippedIfFilled(o: Option<string>): (r: Option<string>)
    ensures r.Some? <==> Filled(o)
    ensures r.Some? ==> r.value == Strip(o.value) && !IsBlank(r.value)
  {
    var raw := o.GetOr([]);
    if raw != [] && Strip(raw) != [] then Some(Strip(raw)) else None
  }

  /** The `update_data` dictionary, built by conditional insertion. */
  method UpdatePayload(d: Crawled, now: string) returns (u: UpdateData)
    ensures u.updatedAt == now
    ensures u.name.Some? <==> Filled(d.name)
    ensures u.name.Some? ==> u.name.value == Strip(d.name.value) && !IsBlank(u.name.value)
    ensures u.followers.Some? <==> Positive(d.followers)
    ensures u.followers.Some? ==> u.followers == d.followers
    ensures u.posts.Some? <==> Positive(d.posts)
    ensures u.posts.Some? ==> u.posts == d.posts
    ensures u.text.Some? <==> Filled(d.text)
    ensures u.text.Some? ==> u.text.value == Strip(d.text.value) && !IsBlank(u.text.value)
    ensures u.imageUrl.Some? <==> Truthy(d.imageUrl)
    ensures u.imageUrl.Some? ==> u.imageUrl == d.imageUrl
  {
    var name := StrippedIfFilled(d.name);
    var followers, posts, imageUrl := None, None, None;
    if d.followers.GetOr(0) > 0 {
      followers := d.followers;
    }
    if d.posts.GetOr(0) > 0 {
      posts := d.posts;
    }
    var text := StrippedIfFilled(d.text);
    if d.imageUrl.GetOr([]) != [] {
      imageUrl := d.imageUrl;
    }
    u := UpdateData(now, name, followers, posts, text, imageUrl);
  }

  /** `len(update_data) > 1` exactly when some crawled field qualifies. */
  lemma PayloadHasField(u: UpdateData, d: Crawled, now: string)
    requires UpdateFor(u, d, now)
    ensures Size(u) > 1 <==> AnyField(d)
  {
  }

  /** A stored influencer row. Its key columns are always there; any other
      column (`None`) may be missing from the dictionary a query returns. */
  datatype InfluencerRow = InfluencerRow(
    id: string, platform: string, snsId: string,
    name: Option<Value>, category: Option<Value>, followers: Option<Value>, posts: Option<Value>,
    text: Option<Value>, imageUrl: Option<Value>, createdAt: Option<Value>, updatedAt: Option<Value>)

  datatype UpdateReply = UpdateReply(success: bool, data: Option<seq<InfluencerRow>>, message: string)

  const UpdatedMessage: string := "인플루언서 데이터가 업데이트되었습니다."
  const NothingToUpdateMessage: string := "업데이트할 크롤링 데이터가 없습니다."

  /** `value if column in update_data else current`. */
  function Over<T>(written: Option<T>, wrap: T -> Value, current: Option<Value>): Option<Value> {
    if written.Some? then Some(wrap(written.value)) else current
  }

  /** The row after `.update(u)`: the columns `u` holds overwrite, the others stay. */
  function Updated(row: InfluencerRow, u: UpdateData): InfluencerRow {
    row.(updatedAt := Some(VStr(u.updatedAt)),
         name := Over(u.name, s => VStr(s), row.name),
         followers := Over(u.followers, n => VInt(n), row.followers),
         posts := Over(u.posts, n => VInt(n), row.posts),
         text := Over(u.text, s => VStr(s), row.text),
         imageUrl := Over(u.imageUrl, s => VStr(s), row.imageUrl))
  }

  /** `.update(u).eq("id", id)`. */
  function ApplyUpdate(table: seq<InfluencerRow>, id: string, u: UpdateData): (t: seq<InfluencerRow>)
    ensures |t| == |table|
    ensures forall i :: 0 <= i < |table| ==> t[i] == if table[i].id == id then Updated(table[i], u) else table[i]
  {
    seq(|table|, i requires 0 <= i < |table| => if table[i].id == id then Updated(table[i], u) else table[i])
  }

  /** The rows carrying `id`, in table order (the `response.data` of the update). */
  function WithId(table: seq<InfluencerRow>, id: string): (r: seq<InfluencerRow>)
    ensures forall x :: x in r <==> x in table && x.id == id
  {
    if table == [] then []
    else (if table[0].id == id then [table[0]] else []) + WithId(table[1..], id)
  }

  /** `row'` is `row` after a crawl update: keys and creation time kept, a
      fresh `updated_at`, every filled crawled field written (text stripped)
      and every other column left as it was. */
  ghost predicate CrawlUpdated(row: InfluencerRow, row': InfluencerRow, d: Crawled, now: string) {
    row'.id == row.id && row'.platform == row.platform && row'.snsId == row.snsId &&
    row'.category == row.category && row'.createdAt == row.createdAt &&
    row'.updatedAt == Some(VStr(now)) &&
    row'.name == (if Filled(d.name) then Some(VStr(Strip(d.name.value))) else row.name) &&
    row'.followers == (if Positive(d.followers) then Some(VInt(d.followers.value)) else row.followers) &&
    row'.posts == (if Positive(d.posts) then Some(VInt(d.posts.value)) else row.posts) &&
    row'.text == (if Filled(d.text) then Some(VStr(Strip(d.text.value))) else row.text) &&
    row'.imageUrl == (if Truthy(d.imageUrl) then Some(VStr(d.imageUrl.value)) else row.imageUrl)
  }

  /** `update_influencer_data`: no update is issued unless a crawled field
      qualifies; otherwise the rows with that id get exactly the qualifying
      columns and the others stay. */
  method UpdateInfluencerData(table: seq<InfluencerRow>, id: string, d: Crawled, now: string)
    returns (reply: UpdateReply, table': seq<InfluencerRow>)
    ensures !AnyField(d) ==> table' == table && reply == UpdateReply(true, None, NothingToUpdateMessage)
    ensures AnyField(d) ==> reply == UpdateReply(true, Some(WithId(table', id)), UpdatedMessage)
    ensures |table'| == |table|
    ensures forall i :: 0 <= i < |table| && table[i].id != id ==> table'[i] == table[i]
    ensures forall i :: 0 <= i < |table| && table[i].id == id && AnyField(d) ==>
              CrawlUpdated(table[i], table'[i], d, now)
  {
    var u := UpdatePayload(d, now);
    PayloadHasField(u, d, now);
    if Size(u) > 1 {
      table' := ApplyUpdate(table, id, u);
      reply := UpdateReply(true, Some(WithId(table', id)), UpdatedMessage);
    } else {
      table' := table;
      reply := UpdateReply(true, None, NothingToUpdateMessage);
    }
  }

  /** A second identical update changes nothing more: updating is idempotent. */
  lemma UpdateIdempotent(row: InfluencerRow, row': InfluencerRow, row'': InfluencerRow, d: Crawled, now: string)
    requires CrawlUpdated(row, row', d, now) && CrawlUpdated(row', row'', d, now)
    ensures row'' == row'
  {
  }

  // ---------------------------------------------------------------------------
  // create_influencer_from_crawl (src/db/database.py:521-555)

  const DefaultCategory: string := "일반"

  /** `f"https://www.{platform}.com/{sns_id}/"`. */
  function DefaultSnsUrl(platform: string, snsId: string): string {
    "https://www." + platform + ".com/" + snsId + "/"
  }

  /** The `influencer_data` dictionary of a new influencer. */
  datatype NewInfluencer = NewInfluencer(
    platform: string, category: string, snsId: string, snsUrl: string, name: string,
    followers: int, posts: int, text: string, imageUrl: string, active: bool)

  /** The payload of a new influencer: the stripped name, or the handle when
      the crawl found none; the stripped bio or ""; the counts or 0;
      `sns_url` taken from the `profile_image_url` key whenever that key is
      present (even when empty), else the profile address. */
  function CreatePayload(platform: string, snsId: string, d: Crawled): (p: NewInfluencer)
    ensures p.platform == platform && p.snsId == snsId && p.category == DefaultCategory && p.active
    ensures Filled(d.name) ==> p.name == Strip(d.name.value) && !IsBlank(p.name)
    ensures !Filled(d.name) ==> p.name == snsId
    ensures IsStripped(p.text) && (Filled(d.text) <==> p.text != [])
    ensures p.followers == d.followers.GetOr(0) && p.posts == d.posts.GetOr(0)
    ensures p.snsUrl == if d.imageUrl.Some? then d.imageUrl.value else DefaultSnsUrl(platform, snsId)
    ensures p.imageUrl == d.imageUrl.GetOr([])
  {
    var rawName := d.name.GetOr([]);
    var name := if rawName != [] && Strip(rawName) != [] then Strip(rawName) else snsId;
    var rawText := d.text.GetOr([]);
    var text := if rawText != [] && Strip(rawText) != [] then Strip(rawText) else [];
    NewInfluencer(
      platform, DefaultCategory, snsId,
      d.imageUrl.GetOr(DefaultSnsUrl(platform, snsId)),
      name, d.followers.GetOr(0), d.posts.GetOr(0), text,
      d.imageUrl.GetOr([]), true)
  }

  /** Creating and updating agree: every crawled column an update writes holds
      the same value in a newly created influencer. */
  lemma CreateAgreesWithUpdate(platform: string, snsId: string, d: Crawled, u: UpdateData, now: string)
    requires UpdateFor(u, d, now)
    ensures var p := CreatePayload(platform, snsId, d);
      (u.name.Some? ==> p.name == u.name.value) &&
      (u.followers.Some? ==> p.followers == u.followers.value) &&
      (u.posts.Some? ==> p.posts == u.posts.value) &&
      (u.text.Some? ==> p.text == u.text.value) &&
      (u.imageUrl.Some? ==> p.imageUrl == u.imageUrl.value)
  {
  }

  // ---------------------------------------------------------------------------
  // check_influencer_exists and get_influencer_info (src/db/database.py:461-475, 688-768)

  /** The match of a row for a query: same platform and the same handle, exactly or ignoring ASCII case. */
  predicate Matches(row: InfluencerRow, platform: string, snsId: string, exact: bool) {
    row.platform == platform && (if exact then row.snsId == snsId else Lower(row.snsId) == Lower(snsId))
  }

  /** The position of the first matching row, or `|table|`. */
  function FirstMatch(table: seq<InfluencerRow>, platform: string, snsId: string, exact: bool): (i: nat)
    ensures i <= |table|
    ensures forall j :: 0 <= j < i ==> !Matches(table[j], platform, snsId, exact)
    ensures i < |table| ==> Matches(table[i], platform, snsId, exact)
  {
    if table == [] then 0
    else if Matches(table[0], platform, snsId, exact) then 0
    else 1 + FirstMatch(table[1..], platform, snsId, exact)
  }

  /** `check_influencer_exists`: the first exact match. */
  function CheckInfluencerExists(table: seq<InfluencerRow>, platform: string, snsId: string): (r: Option<InfluencerRow>)
    ensures r.Some? <==> exists i :: 0 <= i < |table| && Matches(table[i], platform, snsId, true)
    ensures r.Some? ==> r.value in table && r.value.platform == platform && r.value.snsId == snsId
    ensures forall i :: (0 <= i < |table| && Matches(table[i], platform, snsId, true) &&
                         (forall j :: 0 <= j < i ==> !Matches(table[j], platform, snsId, true))) ==> r == Some(table[i])
  {
    var i := FirstMatch(table, platform, snsId, true);
    if i < |table| then Some(table[i]) else None
  }

  /** The row `get_influencer_info` settles on: the first exact match, else the
      first case-insensitive one. */
  function Lookup(table: seq<InfluencerRow>, platform: string, snsId: string): (r: Option<InfluencerRow>)
    ensures r.Some? <==> exists i :: 0 <= i < |table| && Matches(table[i], platform, snsId, false)
    ensures r.Some? ==> r.value in table && r.value.platform == platform && Lower(r.value.snsId) == Lower(snsId)
    ensures CheckInfluencerExists(table, platform, snsId).Some? ==> r == CheckInfluencerExists(table, platform, snsId)
    ensures CheckInfluencerExists(table, platform, snsId).None? ==>
              forall i :: (0 <= i < |table| && Matches(table[i], platform, snsId, false) &&
                           (forall j :: 0 <= j < i ==> !Matches(table[j], platform, snsId, false))) ==> r == Some(table[i])
  {
    var e := FirstMatch(table, platform, snsId, true);
    if e < |table| then Some(table[e])
    else
      var c := FirstMatch(table, platform, snsId, false);
      if c < |table| then Some(table[c]) else None
  }

  /** The `data` of a found influencer; `profile_url` is the row's `profile_image_url`. */
  datatype Info = Info(
    id: string, snsId: string, name: Value, category: Value, followers: Value,
    posts: Value, text: Value, profileUrl: Value, createdAt: Value)

  /** The `data` of a found row: each column as stored, or its default when
      the key is missing ("" for text, 0 for counts, "일반" for the category). */
  function InfoOf(row: InfluencerRow): (info: Info)
    ensures info.id == row.id && info.snsId == row.snsId
    ensures info.profileUrl == (if row.imageUrl.Some? then row.imageUrl.value else VStr([]))
    ensures info.category == (if row.category.Some? then row.category.value else VStr(DefaultCategory))
    ensures info.followers == (if row.followers.Some? then row.followers.value else VInt(0))
    ensures info.posts == (if row.posts.Some? then row.posts.value else VInt(0))
    ensures info.name == (if row.name.Some? then row.name.value else VStr([]))
    ensures info.text == (if row.text.Some? then row.text.value else VStr([]))
    ensures info.createdAt == (if row.createdAt.Some? then row.createdAt.value else VStr([]))
  {
    Info(row.id, row.snsId,
         row.name.GetOr(VStr([])),
         row.category.GetOr(VStr(DefaultCategory)),
         row.followers.GetOr(VInt(0)),
         row.posts.GetOr(VInt(0)),
         row.text.GetOr(VStr([])),
         row.imageUrl.GetOr(VStr([])),
         row.createdAt.GetOr(VStr([])))
  }

  /** `get_influencer_info`: the exact query, then, only when it is empty, the
      loop over the platform's rows that stops at the first case-insensitive match. */
  method GetInfluencerInfo(table: seq<InfluencerRow>, platform: string, snsId: string) returns (found: Option<Info>)
    ensures found == match Lookup(table, platform, snsId) case Some(row) => Some(InfoOf(row)) case None => None
  {
    var exact := CheckInfluencerExists(table, platform, snsId);
    var hit := exact;
    if exact.None? {
      var i := 0;
      while i < |table|
        invariant 0 <= i <= |table|
        invariant forall j :: 0 <= j < i ==> !Matches(table[j], platform, snsId, false)
      {
        if table[i].platform == platform && Lower(table[i].snsId) == Lower(snsId) {
          hit := Some(table[i]);
          FirstMatchAt(table, platform, snsId, false, i);
          break;
        }
        i := i + 1;
      }
      if hit.None? {
        FirstMatchNone(table, platform, snsId, false);
      }
    }
    found := if hit.Some? then Some(InfoOf(hit.value)) else None;
  }

  lemma {:induction false} FirstMatchAt(table: seq<InfluencerRow>, platform: string, snsId: string, exact: bool, i: nat)
    requires i < |table| && Matches(table[i], platform, snsId, exact)
    requires forall j :: 0 <= j < i ==> !Matches(table[j], platform, snsId, exact)
    ensures FirstMatch(table, platform, snsId, exact) == i
  {
    if i > 0 {
      FirstMatchAt(table[1..], platform, snsId, exact, i - 1);
    }
  }

  lemma FirstMatchNone(table: seq<InfluencerRow>, platform: string, snsId: string, exact: bool)
    requires forall j :: 0 <= j < |table| ==> !Matches(table[j], platform, snsId, exact)
    ensures FirstMatch(table, platform, snsId, exact) == |table|
  {
  }

  // ---------------------------------------------------------------------------
  // update_instagram_crawl_session and update_crawl_result_status
  // (src/db/database.py:85-113, 139-174)

  const Completed: string := "completed"

  /** The session update dictionary; `completedAt` is the optional `completed_at` key. */
  datatype SessionUpdate = SessionUpdate(
    successful: int, failed: int, status: string, updatedAt: string, completedAt: Option<string>)

  /** The session payload: the tallies and status always, `completed_at`
      exactly when the status is "completed". `now` and `later` are the two
      `datetime.now()` reads, for `updated_at` and `completed_at`. */
  function SessionPayload(successful: int, failed: int, status: string, now: string, later: string): (p: SessionUpdate)
    ensures p.successful == successful && p.failed == failed && p.status == status && p.updatedAt == now
    ensures p.completedAt.Some? <==> status == Completed
    ensures p.completedAt.Some? ==> p.completedAt.value == later
  {
    var data := SessionUpdate(successful, failed, status, now, None);
    if status == Completed then data.(completedAt := Some(later)) else data
  }

  /** The session update a page issues after its tally, when a session was created. */
  function SessionAfterTally(sessionId: Option<string>, successful: nat, failed: nat, now: string, later: string): (r: Option<SessionUpdate>)
    ensures r.Some? <==> sessionId.Some?
    ensures r.Some? ==> r.value.status == Completed && r.value.updatedAt == now && r.value.completedAt == Some(later) &&
                        r.value.successful == successful && r.value.failed == failed
  {
    if sessionId.Some? then Some(SessionPayload(successful, failed, Completed, now, later)) else None
  }

  /** The result-status update dictionary; `errorMessage` is the optional `error_message` key. */
  datatype StatusUpdate = StatusUpdate(status: string, updatedAt: string, errorMessage: Option<string>)

  /** The status payload: status and time always, the error message only when it is non-empty. */
  function StatusPayload(status: string, errorMessage: Option<string>, now: string): (p: StatusUpdate)
    ensures p.status == status && p.updatedAt == now
    ensures p.errorMessage.Some? <==> Truthy(errorMessage)
    ensures p.errorMessage.Some? ==> p.errorMessage == errorMessage && p.errorMessage.value != []
  {
    var data := StatusUpdate(status, now, None);
    if errorMessage.Some? && errorMessage.value != [] then data.(errorMessage := errorMessage) else data
  }
}
