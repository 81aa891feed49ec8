# insta-crawler core, modelled in Dafny

This project models the core of an Instagram influencer crawler. It covers
five areas:

- **The crawler** (`src/instagram_crawler.py`). This is the Selenium-driven
  crawler: it launches a browser with stealth scripts, waits for a profile
  page on a ladder of landmarks (`main`, then `body`, then `html`) and reads
  the profile figures out of page titles, Open Graph descriptions and
  JSON-LD. It also reads like and comment counts of a post, from its meta
  description first and then from the page's elements, and runs batches of
  post crawls with cooldowns between them.
- **The count normaliser** (`extract_numbers`). It turns "1.2K", "3.4M",
  "1만" or "1,234" into an integer.
- **The database layer** (`src/db/database.py`). It builds the update and
  insert payloads for influencers, looks them up exactly and then
  case-insensitively, and builds the crawl-session and crawl-status payloads.
- **The project pages** (`src/ui/project_components.py`). These hold
  `perform_crawling` (a single profile crawl followed by the database
  update), the batch profile crawl with its tally, tag parsing, campaign
  filtering, pagination and the list of content links.
- **The crawler pages** (`src/ui/crawler_components.py`). These hold the
  single-post form, the rows an uploaded sheet hands to the post batch, and
  the tally and session update after that batch.

The modules follow the program's structure:

| module | file | models |
|---|---|---|
| `Wrappers` | wrappers.dfy | `Option` and `Result` |
| `Text` | text.dfy | `strip`, `lower`, `title`, `in`, `replace`, `split`, `join`, `int()`, `str()` |
| `Urls` | urls.dfy | the profile address and `split('/')[-2]` |
| `Regex` | regex.dfy | the fragment of `re.search` the patterns use, with a reference relation |
| `Patterns` | patterns.dfy | the crawler's regular expressions, written in that fragment |
| `Units` | units.dfy | `extract_numbers` |
| `UnitExamples` | units_examples.dfy | worked values of `extract_numbers` |
| `Page` | page.dfy | a snapshot of what the browser shows |
| `ProfileExtract` | profile_extract.dfy | the name, bio, post and follower extraction |
| `PostExtract` | post_extract.dfy | the like and comment extraction |
| `Crawler` | crawler.dfy | `InstagramCrawler`: driver life cycle, profile and post crawls |
| `Batch` | batch.dfy | `batch_crawl_instagram_posts` |
| `Database` | database.dfy | payloads, lookups and updates |
| `ProjectUi` | project_ui.dfy | the project pages' logic |
| `CrawlerUi` | crawler_ui.dfy | the crawler pages' logic |

### What the environment contributes

The browser, randomness, the clock and the database server are outside the
model. Each is an explicit input:

- **The browser.**
  - `Launch` either holds the random user-agent pick with the outcome of each
    stealth script, or is the message of a launch failure.
  - `Visit` and `PostVisit` either hold the `Snapshot` the page shows, or are
    the message of the exception the visit raised.
  - A `Snapshot` contains:
    - the title;
    - the `og:*` meta contents;
    - the JSON-LD scripts;
    - the landmarks present;
    - the texts of the elements each selector finds.
- **Sleeps.** The cooldown draws of `random.randint(30, 60)` are a sequence of seconds. The shorter random pauses inside a crawl are left out.
- **Database exceptions.** An exception in an update or creation is an optional message. A failing `check_influencer_exists`, which returns `None`, is a boolean.
- **The save calls after the batches.** Their results are a sequence of
  booleans.
- **The time.** Each `datetime.now().isoformat()` read is a string parameter. The session update reads the clock twice, so it takes two.

### How the crawler object is modelled

`InstagramCrawler` is a class, because the source updates its fields in
place:

- `driver` and the set of background tasks are fields;
- ghost counters of launches and quits let the contracts state that every
  path through the pages that use a crawler closes what it opened.

Integers are unbounded. The source's `int(float(x) * unit)` is computed
exactly on decimals, truncating toward zero.

## Model

| member | source | states |
|---|---|---|
| Text.Strip | src/db/database.py:491-492 | `strip()` leaves no Python whitespace at either end; the result is empty exactly when the input is all whitespace; an already stripped string is unchanged |
| Text.StripIsTrim | src/db/database.py:491-492 | the stripped string is the piece of the input between a whitespace prefix and a whitespace suffix: nothing inside is removed |
| Text.Lower | src/db/database.py:709-719 | `lower()` keeps the length and lowers each ASCII letter in place; other characters are kept (see Left out) |
| Text.Title | src/ui/project_components.py:164 | `title()` upper-cases each letter that starts a run of letters, lower-cases the others and keeps every other character; only ASCII letters count as cased, which is exact for the four ASCII platform names of src/ui/project_components.py:183-185 |
| Text.RemoveChar | src/ui/project_components.py:49 | `replace(c, '')` leaves no `c`, keeps exactly the other characters, and never lengthens |
| Text.RemoveKeepsCount | src/ui/project_components.py:49 | every character other than `c` occurs as often as before, and `c` not at all |
| Text.RemoveAppend | src/ui/project_components.py:49 | removal works piece by piece, `(a + b)` to `a'` + `b'`, so the kept characters stay in their order |
| Text.RemoveAbsent | src/ui/project_components.py:49 | a string without `c` is unchanged |
| Text.Split | src/ui/project_components.py:809 | `split(c)` gives at least one piece, no piece holds `c`, and joining the pieces with `c` gives back the input |
| Text.SplitJoin | src/ui/project_components.py:72 | splitting undoes joining when no piece holds the separator |
| Text.ParseInt | src/instagram_crawler.py:693 | `int()` of a `\d+` group: it succeeds on a non-empty string of ASCII digits, with the value of those digits, and a string with any other character is refused |
| Text.NatToString | src/instagram_crawler.py:814 | `str(n)` is a non-empty digit string with no leading zero |
| Text.NatToStringRoundTrip | src/instagram_crawler.py:814 | `int(str(n)) == n` |
| Urls.ProfileUrl | src/ui/project_components.py:47-49 | the profile address is the instagram prefix, the handle without `@`, and a closing slash, so it contains `instagram.com` |
| Urls.SecondLastSegment | src/ui/project_components.py:72 | `url.split('/')[-2]` raises exactly when the address has no `/`; otherwise it is the second-to-last piece of `split('/')`, which holds no `/` |
| Urls.HandleRoundTrip | src/ui/project_components.py:47-72 | the handle read back from a built profile address is the given handle without `@` |
| Regex.Run | src/instagram_crawler.py:202 | a greedy repeat of a class consumes a maximal run of matching characters |
| Regex.MatchFrom | src/instagram_crawler.py:360 | a match that `re` finds from a position ends inside the text |
| Regex.TryCounts | src/instagram_crawler.py:360 | backtracking over repeat counts stays inside the text |
| Regex.MatchSound | src/instagram_crawler.py:360 | every match the backtracking matcher returns is one the reference relation `Derives` accepts |
| Regex.TryCountsSound | src/instagram_crawler.py:360 | every match found while giving back repeated characters is accepted by `Derives` |
| Regex.MatchComplete | src/instagram_crawler.py:360 | whenever `Derives` accepts a match from a position, the matcher finds one there |
| Regex.TryCountsComplete | src/instagram_crawler.py:360 | the count loop finds a match whenever the rest of the pattern matches after some allowed count no larger than the first one tried |
| Regex.SearchFromLeftmost | src/instagram_crawler.py:360 | searching from a position returns the leftmost start at which the pattern matches, or reports that none matches |
| Regex.SearchLeftmost | src/instagram_crawler.py:360-362 | `re.search` returns a match `Derives` accepts, at the leftmost matching start (position 0 when anchored); no hit means no start matches |
| Regex.FirstRunFrom | src/instagram_crawler.py:202 | the first maximal run of a class: nothing before it belongs to the class, and it cannot be extended |
| Regex.RunPatternSearch | src/instagram_crawler.py:202 | searching a run pattern finds exactly the first maximal run at or after the position |
| Regex.RunPatternGroup | src/instagram_crawler.py:202-228 | `re.findall(r'[\d.]+', t)[0]` and `re.findall(r'\d+', t)[0]` are the first maximal run of the class |
| Units.IndexOf | src/instagram_crawler.py:202-203 | the first position of a character, or none when it is absent |
| Units.ParseDecimal | src/instagram_crawler.py:203 | `float(tok)` succeeds exactly on a token with at most one point and at least one digit; the mantissa is the digits without the point and the scale is the number of characters after the point (0 without one), so the value is mantissa / 10^scale |
| Units.Scale | src/instagram_crawler.py:203 | `int(x * unit)` is the truncation: `n <= x * unit < n + 1` |
| Units.ExtractNumbers | src/instagram_crawler.py:191-231 | empty text is 0; only a unit letter can make the call raise; with no unit the value is the first digit run (0 if none); with a unit it succeeds exactly when the first decimal token is a valid float |
| Units.ExtractScaled | src/instagram_crawler.py:201-226 | with a unit and a well-formed first decimal token, the result is `Scale` of that token's value, i.e. its truncation times the unit |
| UnitExamples.ExtractUnit | src/instagram_crawler.py:201-226 | a unit, a first decimal token and its value determine the result |
| UnitExamples.ExtractUnitNoToken | src/instagram_crawler.py:202 | a unit with no digit or point is the IndexError of `findall(...)[0]` |
| UnitExamples.ExtractK | src/instagram_crawler.py:211-213 | "1.2K" is 1200 |
| UnitExamples.ExtractFortyEight | src/instagram_crawler.py:211-213 | "48K" is 48000 |
| UnitExamples.ExtractMan | src/instagram_crawler.py:217-220 | "1만" is 10000 |
| UnitExamples.ExtractComma | src/instagram_crawler.py:197-231 | "1,234" is 1234: the comma is removed before the digits are read |
| UnitExamples.ExtractFraction | src/instagram_crawler.py:227-229 | "1.5" with no unit is 1: only the first digit run counts |
| UnitExamples.ExtractBare | src/instagram_crawler.py:211-213 | "K" alone raises, since it holds no number |
| ProfileExtract.Captured | src/instagram_crawler.py:360-362 | a match gives its first group with the edge whitespace stripped; no match gives the empty string |
| ProfileExtract.FirstNonEmptyIndex | src/instagram_crawler.py:379-400 | the position of the first non-empty candidate: all before it are empty |
| ProfileExtract.NameOf | src/instagram_crawler.py:349-406 | the name is stripped and is the title candidate when that is non-empty; otherwise it is the first non-empty Open Graph candidate; it is empty exactly when every candidate is |
| ProfileExtract.ExtractName | src/instagram_crawler.py:349-406 | the name extraction computes `NameOf` |
| ProfileExtract.Capture | src/instagram_crawler.py:360-362 | one search and strip computes `Captured` |
| ProfileExtract.OgName | src/instagram_crawler.py:378-400 | the three Open Graph patterns, each tried only while the name is empty, give the first non-empty capture |
| ProfileExtract.OgNameChain | src/instagram_crawler.py:378-400 | the first non-empty capture is the first pattern's when it is non-empty, else the second's when that is non-empty, else the third's |
| ProfileExtract.NameSteps | src/instagram_crawler.py:349-406 | the title candidate, then the Open Graph candidates, is how `NameOf` is assembled |
| ProfileExtract.CountToken | src/instagram_crawler.py:413-423 | no description gives no token; the English pattern is tried first, the Korean one only when the English one fails |
| ProfileExtract.CountFrom | src/instagram_crawler.py:413-427 | when there is a token and `extract_numbers` returns a value, the count is that value; no token, or a token on which it raises, gives 0 |
| ProfileExtract.FirstLdIndex | src/instagram_crawler.py:465-476 | the first JSON-LD script that ends the scan: all before it pass on |
| ProfileExtract.LdDescription | src/instagram_crawler.py:463-479 | there is a JSON-LD description exactly when some script is an object with a string `description`; it is then the stripped description of the first such script |
| ProfileExtract.ScanLdScripts | src/instagram_crawler.py:465-476 | the loop over the scripts computes `LdDescription` |
| ProfileExtract.MetaBio | src/instagram_crawler.py:481-513 | empty without a description; the stripped `&quot;…&quot;` group when that pattern matches; otherwise the stripped `: "…"` group when that one matches; otherwise the stripped description |
| ProfileExtract.BioOf | src/instagram_crawler.py:463-513 | a non-empty JSON-LD description wins; otherwise the meta description's bio; always stripped |
| ProfileExtract.ExtractBio | src/instagram_crawler.py:463-513 | the bio extraction computes `BioOf` |
| ProfileExtract.ExtractProfile | src/instagram_crawler.py:329-513 | the profile fields are those of `ProfileOf` of the page, with stripped name and bio |
| PostExtract.MetaCount | src/instagram_crawler.py:689-698 | no match is 0; a match is `int()` of the group, which may raise |
| PostExtract.MetaCounts | src/instagram_crawler.py:679-701 | no description, or a like group `int()` rejects, gives zero likes and comments; otherwise both come from the groups |
| PostExtract.FirstDecisive | src/instagram_crawler.py:727-741 | the first element whose text ends the loop: all before it are passed over |
| PostExtract.LoopCount | src/instagram_crawler.py:727-741 | the first element that does not `continue` decides: its value when it breaks with a count, 0 when it raises; 0 when every element is skipped |
| PostExtract.FirstPositive | src/instagram_crawler.py:720-745 | the first selector with a positive count: all before it gave 0 |
| PostExtract.PickFirst | src/instagram_crawler.py:720-745 | the count is positive exactly when some selector gave a positive count, and it is then the count of the first such selector |
| PostExtract.ScanElements | src/instagram_crawler.py:727-741 | the loop over one selector's elements computes `LoopCount` |
| PostExtract.ScanXPaths | src/instagram_crawler.py:720-745 | the loop over the selectors computes `PickFirst` |
| PostExtract.DomScan | src/instagram_crawler.py:704-779 | the element scan for likes or comments computes `DomCount` |
| PostExtract.MetaFirst | src/instagram_crawler.py:679-779 | a positive meta count is kept and the element pass is used only for a zero one; likes and comments are chosen independently |
| PostExtract.ExtractPost | src/instagram_crawler.py:679-779 | the post counts are `PostCounts`; a positive meta count is never overridden |
| Crawler.InjectionOf | src/instagram_crawler.py:147-154 | a script is run with the chosen user agent as argument exactly when it mentions `userAgent` |
| Crawler.InjectedRan | src/instagram_crawler.py:147-154 | the scripts that ran are exactly those whose execution did not raise, in order |
| Crawler.InjectedAll | src/instagram_crawler.py:147-154 | when no script raises, each one runs once, in order |
| Crawler.InjectStealth | src/instagram_crawler.py:147-154 | the stealth loop computes `Injected`, skipping the scripts that raise |
| Crawler.ProfileFailure | src/instagram_crawler.py:583-641 | a failed profile result keeps the address, status and message, and every data field is empty |
| Crawler.Ladder | src/instagram_crawler.py:264-295 | the page is ready exactly when `main`, `body` or `html` is present; an earlier rung wins; waiting never exceeds 25 seconds and is exactly 25 when nothing appears |
| Crawler.ProfileCrawl | src/instagram_crawler.py:233-641 | success exactly when a driver exists, the visit succeeds and the ladder is ready, with the fields of `ProfileOf` of the page; a timeout when `get` raises a `TimeoutException` (its text after the timeout prefix) or the ladder fails; otherwise an error carrying the launch's or the visit's message; failures carry no data |
| Crawler.PostCrawl | src/instagram_crawler.py:643-804 | success exactly when a driver exists, the visit succeeds and `main` appears, with `PostCounts`; a timeout when `get` raises a `TimeoutException` or `main` is missing; otherwise an error with the raised message; failures count 0 likes and 0 comments |
| Crawler.InstagramCrawler.constructor | src/instagram_crawler.py:36-39 | a new crawler has no driver and no background tasks |
| Crawler.InstagramCrawler.SetupDriver | src/instagram_crawler.py:41-156 | a successful launch installs the driver and counts one launch; a failure changes nothing and returns the message |
| Crawler.InstagramCrawler.EnsureDriver | src/instagram_crawler.py:236-237 | an existing driver is kept; otherwise the driver is set up |
| Crawler.InstagramCrawler.CrawlProfile | src/instagram_crawler.py:233-641 | the result is `ProfileCrawl` of the driver state and the environment; the driver is created lazily and kept |
| Crawler.InstagramCrawler.CrawlPost | src/instagram_crawler.py:643-804 | the result is `PostCrawl`; the driver is created lazily and kept |
| Crawler.InstagramCrawler.CloseDriver | src/instagram_crawler.py:901-918 | every background task is cancelled, the driver is quit once if present and cleared, so launches equal quits afterwards |
| Crawler.CloseTwice | src/instagram_crawler.py:901-918 | closing twice quits at most once and the second close cancels nothing |
| Batch.RowName | src/instagram_crawler.py:813-815 | a blank name cell becomes `Post_<label+1>`; otherwise the cell's text |
| Batch.Notify | src/instagram_crawler.py:835-847 | one progress event on the chosen channel, or none when silent |
| Batch.ReportingAsWritten | src/instagram_crawler.py:835-847 | as written: the widgets are used only when a callback is also given, and without a callback nothing is reported |
| Batch.IntendedReporting | src/instagram_crawler.py:835-847 | the widgets are used whenever all three are given; the callback otherwise; silent only without both |
| Batch.WidgetsIgnored | src/ui/crawler_components.py:192-201 | the call from the crawler page (no callback, all three widgets) is silent as written and reports on the widgets as intended |
| Batch.ReportingAgrees | src/instagram_crawler.py:835-847 | with a callback the two readings agree |
| Batch.BatchCrawlPosts | src/instagram_crawler.py:806-899 | as written, with each row keyed by its DataFrame label: the batch returns `Results` and emits `EventsAsWritten` of its rows, replies and cooldown draws |
| Batch.BatchCrawlPostsCorrected | src/instagram_crawler.py:806-899 | the same loop keyed by row position: it returns `Results` and emits `BatchEvents` |
| Batch.CrawlRow | src/instagram_crawler.py:811-897 | one turn of the loop computes `RowEffect` of its row under its key |
| Batch.ResultsPerRow | src/instagram_crawler.py:811-897 | one result per row, named by `RowName`: an invalid link is reported invalid, a raised crawl becomes an error result, and a returned crawl keeps its counts and status |
| Batch.ResultsKeyFree | src/instagram_crawler.py:811-859 | the results depend neither on how the rows are keyed nor on the reporting channel |
| Batch.RowSleeps | src/instagram_crawler.py:860-874 | a row sleeps once exactly when its link is valid, its crawl returned, and its index (label or position) is not the last; otherwise it does not sleep |
| Batch.SleepsAreCooldowns | src/instagram_crawler.py:860-874 | the number of sleeps is the number of cooldowns `CoolCount` predicts |
| Batch.CoolCountAllValid | src/instagram_crawler.py:860-874 | with every link valid and every crawl returning, all but the last crawled row sleep |
| Batch.CooldownsBetweenCrawls | src/instagram_crawler.py:860-874 | a batch of n crawled rows sleeps exactly n-1 times: between crawls, never after the last |
| Batch.SleepsInRange | src/instagram_crawler.py:862 | every sleep lies in [30, 60] seconds when the draws do |
| Batch.DenseLabels | src/instagram_crawler.py:861 | when labels equal positions, the label-based code as written produces the intended events |
| Batch.DenseEvents | src/instagram_crawler.py:861 | for labels equal to positions the label test and the position test produce the same events |
| Batch.SparseLabels | src/instagram_crawler.py:861 | with labels 1 and 2, as left by a filtered sheet, the code as written sleeps 0 times instead of once |
| Batch.GappedLabelsSkipCooldown | src/instagram_crawler.py:861 | for any batch of at least two crawled rows whose labels are all ahead of their positions, the code as written sleeps fewer than the n-1 times of the position-keyed batch |
| Batch.LabelCoolsAtMost | src/instagram_crawler.py:861 | with no label behind its position, the as-written batch takes no more cooldowns than the position-keyed one |
| Batch.SilentOnlySleeps | src/instagram_crawler.py:835-847 | with no channel, every event of the batch is a sleep: no progress is reported |
| Database.StrippedIfFilled | src/db/database.py:490-503 | a text field is kept exactly when present and not blank, and then stripped (and still not blank) |
| Database.UpdatePayload | src/db/database.py:485-506 | each field is in the payload exactly when the crawl gave a usable value (non-blank text, positive count, present image), stripped where text; the time is always set |
| Database.PayloadHasField | src/db/database.py:508-509 | the payload holds more than the time exactly when some field was usable |
| Database.ApplyUpdate | src/db/database.py:510-513 | the rows with the id are updated, every other row is unchanged, and the table keeps its size |
| Database.WithId | src/db/database.py:510-515 | the returned rows are exactly the table's rows with the id |
| Database.UpdateInfluencerData | src/db/database.py:479-520 | nothing usable leaves the table unchanged with the "nothing to update" reply; otherwise the id's rows are updated and returned; other rows are unchanged |
| Database.UpdateIdempotent | src/db/database.py:485-513 | applying the same crawl twice gives the same row as applying it once |
| Database.CreatePayload | src/db/database.py:522-548 | the new influencer has a stripped name or the handle, the crawled counts or 0, the crawled image or the default address, the default category, and is active |
| Database.CreateAgreesWithUpdate | src/db/database.py:485-548 | the insert payload and the update payload take the same usable values from one crawl |
| Database.FirstMatch | src/db/database.py:702-719 | the first row that matches: none before it does |
| Database.CheckInfluencerExists | src/db/database.py:462-477 | a row is found exactly when one has the same platform and handle, and it is the first such row of the table |
| Database.Lookup | src/db/database.py:700-719 | a row is found exactly when one matches ignoring ASCII case; the first exact match takes precedence, and without one it is the first case-insensitive match, where the loop breaks |
| Database.InfoOf | src/db/database.py:734-752 | the id and handle are the row's; each other column is the stored value, or its default when missing (empty name, bio, address and creation time, the default category, zero counts) |
| Database.GetInfluencerInfo | src/db/database.py:688-768 | the information of the looked-up row (exact first, then ignoring ASCII case), or none when there is no match |
| Database.SessionPayload | src/db/database.py:144-174 | the session update holds the tallies, the status and the first clock read; the completion time is set exactly for a completed session, to the second clock read |
| Database.SessionAfterTally | src/ui/crawler_components.py:225-227 | a session is updated exactly when one was created, marked completed with the tallies, updated at the first clock read and completed at the second |
| Database.StatusPayload | src/db/database.py:86-114 | the status update holds the status and time, and an error message exactly when a non-empty one was given |
| ProjectUi.CleanSnsId | src/ui/project_components.py:72 | a given handle loses its `@`; otherwise the handle is the address's second-to-last piece, and the address without `/` is the IndexError |
| ProjectUi.CrawledOf | src/ui/project_components.py:79-140 | the crawl result's name, bio, image and counts are what the database update receives |
| ProjectUi.DbStep | src/ui/project_components.py:79-140 | with saving off there is no call; an influencer the lookup finds is updated by id; otherwise, including when the lookup itself fails (src/db/database.py:475-477), one is created |
| ProjectUi.Perform | src/ui/project_components.py:41-175 | every answer is a success exactly when it carries data |
| ProjectUi.Answer | src/ui/project_components.py:75-159 | after the crawl: a failed crawl answers with its error (or the unknown-error text), no data and no database call; a successful one answers done, with the data and the database step's message and call |
| ProjectUi.PerformOutcome | src/ui/project_components.py:41-175 | success exactly when an Instagram crawl succeeds and the handle can be cleaned; other platforms and an address without `/` give the source's messages; a database call happens only on success with saving on, and then data and call are `DbStep`'s |
| ProjectUi.CrawlAndAnswer | src/ui/project_components.py:75-175 | the Instagram path crawls with the fresh crawler, answers with `Answer`, and closes the crawler, quitting the one browser it may have launched |
| ProjectUi.PerformCrawling | src/ui/project_components.py:41-175 | the page computes `Perform`, and it quits every browser it launched (at most one) |
| ProjectUi.HandleDerivationsAgree | src/ui/project_components.py:47-72 | the handle derived from a built address equals the given one |
| ProjectUi.CreatedSnsUrl | src/db/database.py:528-548 | a profile created from a crawl takes its address from the crawled image and its name from the stripped crawled name, or the handle |
| ProjectUi.BatchItemMeaning | src/ui/project_components.py:585-662 | one table row per influencer: an exception row, an unsupported row, or the crawl's figures on success with an update call by id; failures count 0 |
| ProjectUi.CrawlOne | src/ui/project_components.py:585-662 | one step of the batch computes `BatchItem` and keeps the one driver |
| ProjectUi.CrawlProfiles | src/ui/project_components.py:572-664 | the batch computes `BatchItem` for every influencer, shares one driver, and quits it at the end |
| ProjectUi.TallyBound | src/ui/project_components.py:683-702 | successes plus failures never exceed the rows, and equal them when every save succeeded |
| ProjectUi.ProfileTally | src/ui/project_components.py:683-702 | the tally counts saved successes and failures, together at most the row count |
| ProjectUi.KeepStripped | src/ui/project_components.py:809 | there are never more tags than pieces |
| ProjectUi.KeptStripped | src/ui/project_components.py:809 | every kept tag is non-empty and stripped |
| ProjectUi.ParseTags | src/ui/project_components.py:809 | empty input gives no tags; otherwise the stripped non-empty pieces between commas |
| ProjectUi.TagsRoundTrip | src/ui/project_components.py:1008-1012 | parsing the `", ".join` of proper tags gives them back |
| ProjectUi.Shown | src/ui/project_components.py:876-881 | a campaign is shown exactly when it passes both the type and the status choice |
| ProjectUi.TwoPasses | src/ui/project_components.py:876-881 | filtering by type and then by status is one filter on both |
| ProjectUi.FilterCampaigns | src/ui/project_components.py:876-881 | the two comprehensions keep exactly the campaigns that pass both choices, in order |
| ProjectUi.TotalPages | src/ui/project_components.py:1337-1338 | the page count is the least that holds all items |
| ProjectUi.PageItems | src/ui/project_components.py:1341-1348 | a page holds between one and the page size of items, taken from its slice |
| ProjectUi.PagesPartition | src/ui/project_components.py:1337-1348 | the pages, in order, are exactly the items |
| ProjectUi.ContentLinks.constructor | src/ui/project_components.py:1532-1533 | the list starts from the stored links or empty |
| ProjectUi.ContentLinks.Delete | src/ui/project_components.py:1544-1549 | deleting removes exactly the chosen position |
| ProjectUi.ContentLinks.Add | src/ui/project_components.py:1561-1565 | a non-blank new link is appended stripped; a blank one changes nothing |
| CrawlerUi.UrlRejection | src/ui/crawler_components.py:27-32 | an address is accepted exactly when non-empty and containing `instagram.com`, otherwise rejected with the matching message |
| CrawlerUi.SinglePostName | src/ui/crawler_components.py:61-67 | the post name exists exactly when the address has a `/`, and is the prefix plus the second-to-last piece |
| CrawlerUi.PostNameIsCode | src/ui/crawler_components.py:61-67 | for a post address built from a code, the saved name is the prefix plus the code |
| CrawlerUi.SingleCrawl | src/ui/crawler_components.py:26-99 | rejection exactly for a refused address; a failed crawl is reported as such; a successful one is saved with the address's name and the crawl's counts; an address without `/` crashes after the crawl |
| CrawlerUi.SingleCrawlForm | src/ui/crawler_components.py:26-99 | the form computes `SingleCrawl`, closes its crawler, and launches nothing for a rejected address |
| CrawlerUi.SelectValid | src/ui/crawler_components.py:147-149 | the kept rows are never more than the frame's; a row is kept when its link cell is present and its text matches the regular expression `instagram.com` |
| CrawlerUi.HostMatchesPattern | src/ui/crawler_components.py:149 | every text holding the literal "instagram.com" matches the pattern, so the filter never drops a link the batch would accept |
| CrawlerUi.LooseLinkKept | src/ui/crawler_components.py:149 | "https://instagram,com/p/x/" passes the filter, whose dot matches any character, and fails the batch's literal check at src/instagram_crawler.py:822 |
| CrawlerUi.SheetRows | src/ui/crawler_components.py:128-155 | fewer than two columns is the format error; otherwise the valid rows of the sheet, or the "no valid address" error exactly when there are none |
| CrawlerUi.DropEmptyKeepsValid | src/ui/crawler_components.py:138-149 | dropping empty rows never changes which rows are valid |
| CrawlerUi.FrameRowsFromSheet | src/ui/crawler_components.py:147-149 | each kept row is a valid row of the sheet, with its name and link cells |
| CrawlerUi.FrameRowsOrdered | src/ui/crawler_components.py:147-149 | the kept rows keep the sheet's order |
| CrawlerUi.FrameRowsComplete | src/ui/crawler_components.py:147-149 | every valid row of the sheet is kept |
| CrawlerUi.PostTallyBound | src/ui/crawler_components.py:204-223 | saved successes plus failures never exceed the results, equal them when all were saved, and are 0 when none were |
| CrawlerUi.PostTally | src/ui/crawler_components.py:204-223 | the tally counts saved successes and saved failures, together at most the results |
| CrawlerUi.SheetBatch | src/ui/crawler_components.py:128-227 | as written: a refused sheet gives its message; otherwise the batch runs on the sheet's valid rows keyed by label, reports nothing (every event is a sleep), and the session is completed with its tally and the two clock reads |
| CrawlerUi.SheetBatchCorrected | src/ui/crawler_components.py:128-227 | as intended: the same results and tally, rows keyed by position and progress on the three widgets |

## Left out

- Floating point is not modelled. `float()` and `int(x * unit)` are computed exactly on decimals, so a result that binary rounding would change by one is not reproduced.
- The regular expressions cover the fragment the patterns use. `\d` and the case folding are ASCII only, while Python's `str` patterns accept Unicode digits and fold Unicode case.
- Selenium, Chrome options, the network and the page contents are inputs (`Launch`, `Visit`, `PostVisit`, `Snapshot`). The text of an exception is that input's message, and the timeout's `str(e)` is written out as `Message: <msg>\n`.
- `random.choice`, `random.randint`, `random.uniform` and `time.sleep` are oracle inputs. A sleep is an event carrying its seconds, and `random_delay` (src/instagram_crawler.py:186-189) is not modelled separately.
- Crawler.InstagramCrawler.SetupDriver: the Chrome option list and the UA list (src/instagram_crawler.py:53-59) are not checked field by field; only the chosen agent and the script outcomes are kept.
- The username extraction (src/instagram_crawler.py:516-550) is not part of this model. Its result is never used by the callers modelled here.
- `_extract_meaningful_content` (MD5 hashing and BeautifulSoup cleaning) is not part of this model.
- Streamlit widgets, messages, progress bars and CSV downloads are not modelled. Neither are the debug branches of the project pages, nor the progress updates of the profile batch.
- ProjectUi.Perform: the `db_message` suffixes from `save_crawl_raw_data` (src/ui/project_components.py:108-110, 133-136) and the `is_authenticated` check (84) are not modelled.
- ProjectUi.CrawlProfiles: the `next(...)` lookup at src/ui/project_components.py:587 sits outside the `try` and is taken to always succeed. A fault is modelled only before the crawl; failures inside the save calls are the tally's `saved` input.
- Database calls are modelled on an in-memory table. Supabase, the network and the database's own errors are the `dbFault` input. A key whose value is `None` is modelled as absent, so `.get` defaults apply to absent keys only.
- `save_instagram_crawl_result` is the `saved` input. `create_instagram_crawl_session` is the `sessionId` input, and the `if session_id:` test is that input being present.
- The second `len(valid_df) == 0` check at src/ui/crawler_components.py:166-168 cannot be reached once the first has passed, and is not modelled.
- CrawlerUi.SingleCrawl: the failure message printed at src/ui/crawler_components.py:94-96 and the result display are not modelled. Only the outcome and the saved record are.
- ProjectUi.ContentLinks.Delete: the aliasing between the widget list and `st.session_state` is not modelled. The list is one field that the methods reassign.
- Text.ParseInt: accepts ASCII digit strings only. Python's `int()` also takes surrounding whitespace, a sign and `_` separators, none of which a `\d+` group can hold; it also takes Unicode digits, which a `\d+` group can hold but which the ASCII-only `\d` of this model (see above) never captures.
- Text.Lower: lowers the ASCII letters `A`-`Z` only. Python's `lower()` at src/db/database.py:717 lowers every Unicode cased character.
- Database.Lookup: through `Text.Lower`, the case-insensitive match ignores ASCII case only, so a stored "Ärger_x" is not found for a typed "ärger_x", although the source finds it.
- Database.GetInfluencerInfo: inherits the ASCII-only case-insensitive match of `Database.Lookup`.
- The authentication and configuration modules, `app.py`, `models.py` and the test scripts are not part of this model.

## Findings

| source | as written | input that shows it | evidently intended | confidence | as-written member | corrected member |
|---|---|---|---|---|---|---|
| src/instagram_crawler.py:861 | the cooldown test `index < total_posts - 1` uses the DataFrame label, and so do the `index + 1` progress values at 838, 844, 866 and 871; the completion report at 879, reached through the same test, passes fixed values. The crawler page passes the frame filtered at src/ui/crawler_components.py:148-149, whose labels keep gaps | two valid rows labelled 1 and 2 (the first sheet row was filtered out): no cooldown is taken between the two crawls | one cooldown between consecutive crawls and none after the last, whatever the labels | not executed | Batch.SparseLabels, Batch.GappedLabelsSkipCooldown, Batch.BatchCrawlPosts | Batch.CooldownsBetweenCrawls, Batch.BatchCrawlPostsCorrected |
| src/instagram_crawler.py:835-847 | the widget branch is taken only when `progress_callback and progress_bar and progress_text and status_text` all hold, and the `elif progress_callback:` branch needs the callback too, so `batch_crawl_instagram_posts(valid_df, progress_callback=None, progress_bar=..., progress_text=..., status_text=...)` from src/ui/crawler_components.py:192-201 reports nothing | `progress_callback=None` with all three widgets given | progress is shown on the widgets the page passed | not executed | Batch.WidgetsIgnored, CrawlerUi.SheetBatch | Batch.IntendedReporting, CrawlerUi.SheetBatchCorrected |
