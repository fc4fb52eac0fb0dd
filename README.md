# A verified model of the scraping pipeline

This project models the declaratively configured core of a small job
scraper. The scraper is written in Python and has these parts:

- Per-site constant modules (LinkedIn, Indeed) describe how to build a
  search URL and where the fields of a job card sit in the page markup.
- Two readers, `JobReader` and its older variant `Reader`, turn those
  constants into query URLs and turn a parsed result page into a table of
  job records.
- `JobListing` plans one task per platform and page, runs the tasks,
  appends their tables in task order, and keeps the last result and a
  bounded history.
- `HistoryList` is a doubly linked list of the most recent results, capped
  at `MaxSize`; it evicts the oldest entry first.

The Dafny modules follow that structure:

| module | file | models |
|---|---|---|
| `Wrappers` | wrappers.dfy | `Option`, `Result` and the Python exception kinds the code raises |
| `Strings` | strings.dfy | `str.strip()`, `str(int)`, `str.join` over `seq<char>` |
| `Dom` | dom.dfy | the parsed tree, with `find` (first strict descendant in document order) and `findAll` |
| `SiteProfiles` | profiles.dfy | the two constant modules as `Profile` values, and `EXP_VALUE` |
| `QueryBuilder` | query.dfy | the URL that `ConstructQueryURL` builds, as a function of profile, ordered request and page |
| `Extraction` | extraction.dfy | `JobReader`'s lookups, link handling, column list and record table, as functions |
| `LegacyExtraction` | legacy_extraction.dfy | the same for `Reader`, keeping its differences visible |
| `JobReaders` | job_reader.dfy | `class JobReader`: the user-registered field tables it updates, and its loops as methods |
| `LegacyReaders` | legacy_reader.dfy | `class Reader` and its loops as methods |
| `History` | history.dfy | the intended bounded list on values, and `class HistoryList` over linked `Node`s |
| `HistoryAsWritten` | history_as_written.dfy | `HistoryList` as its code is written, with each defect set against the intended list |
| `Listing` | listing.dfy | request planning, the in-order merge of the task tables, and `class JobListing` |

Some things become values or parameters:

- A Python value tested with `isinstance(x, str)` / `x is None` is a
  `Setting`: `Unset`, `Str(s)` or `NonStr`.
- A raised exception is an `Err` of its Python class.
- A pandas DataFrame is a `Table` with a column list and a sequence of
  records; a record maps a column name to `Option<string>`.
- The HTTP request together with the page parse is a parameter,
  `fetch: string -> Result<Node>`.

Behaviour of the code worth noting:

- Per-task tables are merged in task order (submission order of
  `Executor.map`), not in completion order.
- An extra column the user never registered raises `KeyError` in
  `JobReader` once a card has a link (`self.UserTags[...]`); it does not
  come out as an absent value.
- With no result container, `JobReader.ListContents` returns an empty table
  with the requested columns; `Reader.ListJobContents` returns `None`.

## Model

| member | source | states |
|---|---|---|
| Strings.Strip | ReaderImplementation/JobReader.py:188 | the trimmed text is a slice of the input with only whitespace cut from either end, and neither end of it is whitespace |
| Dom.Find | ReaderImplementation/JobReader.py:181-182 | `find` returns a matching strict descendant, and none exactly when no descendant matches (tag equal, class in the class list) |
| Dom.FindIsFirstMatch | ReaderImplementation/JobReader.py:181-182 | the tree walk of `find` returns the first match in document (pre-)order |
| Dom.FilterTag | ReaderImplementation/JobReader.py:217 | `findAll(tag)` keeps exactly the descendants with that tag, without adding any |
| Dom.FilterTagConcat | ReaderImplementation/JobReader.py:217 | `findAll` keeps document order: filtering two runs gives the first run's matches followed by the second's |
| Dom.FilterTagSingle | ReaderImplementation/JobReader.py:217 | a single node is kept exactly when it has the tag |
| SiteProfiles.IndexOf | ReaderImplementation/Constants/LinkedInReaderConstants.py:22 | `list.index` gives the first position of the value, or ValueError exactly when it is absent |
| SiteProfiles.ExpCodes | ReaderImplementation/Constants/LinkedInReaderConstants.py:17-24 | every level gets its 1-based position (1..6) in input order and nothing is dropped; ValueError exactly when some value is not a level |
| SiteProfiles.ExpCodeIsUnique | ReaderImplementation/Constants/LinkedInReaderConstants.py:17 | a code names one level only |
| SiteProfiles.ExpValue | ReaderImplementation/Constants/LinkedInReaderConstants.py:19-25 | the loop returns the codes, as decimal strings joined by commas, or ValueError at the first unknown level |
| SiteProfiles.ExpValueAsWrittenRaises | ReaderImplementation/Constants/LinkedInReaderConstants.py:25 | as written, joining integers raises TypeError for every non-empty list of valid levels |
| QueryBuilder.BuildQueryShape | ReaderImplementation/JobReader.py:60-63 | the URL fails with ValueError exactly when the search URL is not a string, and otherwise starts with the search URL and `?` |
| QueryBuilder.SegmentsConcat | ReaderImplementation/JobReader.py:65-73 | segments come in the request's iteration order: a split request's URL is its first part's segments followed by its second part's |
| QueryBuilder.SkippedFieldAddsNothing | ReaderImplementation/JobReader.py:66-69 | a field missing from QueryParams, or mapped to None, leaves the URL unchanged wherever it stands in the request, and does not abort |
| QueryBuilder.PageOffsetLaw | ReaderImplementation/JobReader.py:70-73 | for page n, the NumberOfPages segment is `native=<n × multiplier>&`, the same whatever value the caller gave |
| QueryBuilder.RecognisedFieldSegment | ReaderImplementation/JobReader.py:73 | a recognised field with a native key is written `native=value&` |
| QueryBuilder.LinkedInPageParameter | ReaderImplementation/Constants/LinkedInReaderConstants.py:29-31 | for page n, LinkedIn's page segment is `pageNums=<n>&` |
| QueryBuilder.IndeedPageParameter | ReaderImplementation/Constants/IndeedReaderConstants.py:12-14 | for page n, Indeed's page segment is `start=<10·n>&` |
| QueryBuilder.IndeedIgnoresExperienceAndDate | ReaderImplementation/Constants/IndeedReaderConstants.py:10-16 | ExperienceLevel and DatePosted fields never reach an Indeed URL |
| QueryBuilder.IndeedScenarioSegments | ReaderImplementation/Constants/IndeedReaderConstants.py:6-14 | at page offset 10, the fields `engineer` and NumberOfPages give the segments `q=engineer&start=10&` |
| QueryBuilder.IndeedScenario | ReaderImplementation/Constants/IndeedReaderConstants.py:4-14 | page 1 of a two-page search for `engineer` is `https://in.indeed.com/jobs?q=engineer&start=10&` |
| Extraction.GetData | ReaderImplementation/JobReader.py:168-189 | a non-string tag gives None; otherwise None exactly when nothing matches; a non-string class searches by tag only; the only error is KeyError of a string attribute; found text is trimmed |
| Extraction.GetDataFirstInDocumentOrder | ReaderImplementation/JobReader.py:181-188 | the field is read from the first matching descendant in document order |
| Extraction.FieldGettersNeverRaise | ReaderImplementation/JobReader.py:110-148 | with the default attribute the four field getters never raise and return trimmed text |
| Extraction.LinkedInPostedTimeByTag | ReaderImplementation/Constants/LinkedInReaderConstants.py:58-60 | LinkedIn's posting time is the trimmed text of the first `time` element, whatever its class |
| Extraction.GetUserData | ReaderImplementation/JobReader.py:150-166 | a field the user never registered is looked up with no tag and is absent |
| Extraction.SelfLinkIsTrimmedHref | ReaderImplementation/JobReader.py:98-103 | a card that is itself the link yields its own trimmed href |
| Extraction.IndeedCardsAreLinks | ReaderImplementation/Constants/IndeedReaderConstants.py:23-45 | an Indeed card (`a` with class `result`) takes the self-link path |
| Extraction.AbsolutiseSpec | ReaderImplementation/JobReader.py:241 | against an https domain, an absolutised link is an https URL that ends with the raw link; an https link is unchanged |
| Extraction.AbsolutiseExample | ReaderImplementation/JobReader.py:241 | a relative link gets the domain prefixed |
| Extraction.FixedRecord | ReaderImplementation/JobReader.py:242-247 | a record has exactly the five fixed keys and carries the given link |
| Extraction.AddExtras | ReaderImplementation/JobReader.py:249-255 | the extra fields succeed exactly when every non-fixed column can be looked up (registered, and its lookup does not raise); then they add exactly the non-fixed columns, each holding its lookup with the user's tag, class and attribute, and keep every other value |
| Extraction.AddExtrasFirstError | ReaderImplementation/JobReader.py:249-255 | the error is that of the first non-fixed column, in column order, whose lookup fails: KeyError of its name when unregistered, else its lookup's error |
| Extraction.CollectConcat | ReaderImplementation/JobReader.py:236-257 | gathering over two runs of cards is the concatenation of the two results, or the first error |
| Extraction.CollectElements | ReaderImplementation/JobReader.py:236-257 | every gathered record comes from a card that produced it |
| Extraction.ExtractRecordsConcat | ReaderImplementation/JobReader.py:236-257 | records keep document order across a split of the cards |
| Extraction.DropWithoutLink | ReaderImplementation/JobReader.py:237-239 | a card without a link contributes nothing, wherever it stands |
| Extraction.LinkedItems | ReaderImplementation/JobReader.py:237-239 | the cards kept are exactly the input cards that have a link, no more than the input |
| Extraction.LinkedItemsConcat | ReaderImplementation/JobReader.py:236-239 | the linked cards keep document order: those of two runs are the first run's followed by the second's |
| Extraction.LinkedItemsSingle | ReaderImplementation/JobReader.py:237-239 | a single card is kept exactly when it has a link |
| Extraction.LinkedCardRecord | ReaderImplementation/JobReader.py:240-255 | a card with a link yields a record with exactly the fixed and extra columns: the card's absolutised link, the four getters' values for the card, and each extra column's lookup on the card |
| Extraction.RecordsFollowLinkedCards | ReaderImplementation/JobReader.py:236-257 | one record per card with a link, in document order: record k is the record built for linked card k, whose cells LinkedCardRecord gives |
| Extraction.RecordLinksAreAbsolute | ReaderImplementation/JobReader.py:241 | against an https domain every record's link is an https URL |
| Extraction.CollectErr | ReaderImplementation/JobReader.py:236-257 | an error raised for any card aborts the whole table |
| Extraction.UnregisteredExtraRaises | ReaderImplementation/JobReader.py:249-255 | any requested non-fixed column the user never registered makes the listing fail as soon as some card has a link, whatever the other columns |
| Extraction.UnregisteredExtraKeyError | ReaderImplementation/JobReader.py:249-255 | on a linked card that error is KeyError of that column, when the extra columns before it can be looked up |
| Extraction.NoContainerGivesEmptyTable | ReaderImplementation/JobReader.py:214-224 | without the result container the table is empty with the requested columns |
| Extraction.ParentClassIsUnused | ReaderImplementation/Constants/IndeedReaderConstants.py:25 | changing the parent class never changes the table: cards are enumerated by tag alone |
| Extraction.ColumnStep | ReaderImplementation/JobReader.py:197-204 | visiting one requested column adds it to the extras exactly when it is not fixed, keeping the extras distinct |
| Extraction.ColumnsAreDistinct | ReaderImplementation/JobReader.py:195-204 | a column list names no column twice and holds the fixed and requested columns and nothing else |
| Extraction.ColumnsWithoutRequest | ReaderImplementation/JobReader.py:195-196 | with no request the columns are exactly the five fixed ones in order |
| Extraction.ColumnsAsWrittenRaises | ReaderImplementation/JobReader.py:197-200 | as written, requesting a fixed column raises RuntimeError while the intended column list exists |
| LegacyExtraction.GetDataLegacy | ReaderImplementation/Reader.py:135-157 | a non-string tag gives None; a class that is neither None nor a string raises TypeError; otherwise None exactly when nothing matches; errors are TypeError or KeyError of the attribute |
| LegacyExtraction.TrimIsTheOnlyTextDifference | ReaderImplementation/Reader.py:152-153 | Reader's text lookup never raises and differs from JobReader's only by trimming |
| LegacyExtraction.AttributeLookupsAgree | ReaderImplementation/Reader.py:150-151 | attribute lookups agree between the two readers |
| LegacyExtraction.NonStringAttributeRaisesWhenFound | ReaderImplementation/Reader.py:149-156 | a non-string attribute raises TypeError exactly when a node matches |
| LegacyExtraction.AbsolutiseLegacy | ReaderImplementation/Reader.py:199-200 | a link is prefixed with the domain exactly when it starts with neither https:// nor http:// |
| LegacyExtraction.AbsolutiseVariantsDiffer | ReaderImplementation/Reader.py:199-200 | the two readers treat an http:// link differently |
| LegacyExtraction.AbsolutiseVariantsAgree | ReaderImplementation/Reader.py:199-200 | the two absolutisations agree on every link not starting with http:// |
| LegacyExtraction.ItemRecordLegacy | ReaderImplementation/Reader.py:195-209 | a record has exactly Reader's five keys, and no record exactly when the card has no link |
| LegacyExtraction.LegacyRowsHaveFixedColumns | ReaderImplementation/Reader.py:185-210 | every row of Reader's table has exactly the five columns |
| LegacyExtraction.LegacyDropWithoutLink | ReaderImplementation/Reader.py:195-202 | a card without a link contributes no row, wherever it stands |
| LegacyExtraction.LegacyRecordsConcat | ReaderImplementation/Reader.py:195-212 | rows keep document order: the table of two runs of cards holds the first run's rows and then the second's, or the first error |
| LegacyExtraction.LinkedItemsLegacy | ReaderImplementation/Reader.py:196-202 | the cards kept are exactly the input cards that have a link under Reader's link lookup |
| LegacyExtraction.LegacyCardRecord | ReaderImplementation/Reader.py:196-209 | a linked card's record has exactly the five columns: the link absolutised the Reader way, and the untrimmed title, company, time and place lookups of the card |
| LegacyExtraction.LegacyRecordsFollowLinkedCards | ReaderImplementation/Reader.py:195-212 | one row per card with a link, in document order: row k is the record of linked card k |
| LegacyExtraction.DisplayFilterRaises | ReaderImplementation/Reader.py:187-191 | as written, requesting a column Reader does not know raises RuntimeError; when the filter does not raise, the table is the one without it |
| LegacyExtraction.ListJobContentsLegacy | ReaderImplementation/Reader.py:165-173 | the result is None, not an empty table, exactly when there is no result container |
| JobReaders.JobReader.constructor | ReaderImplementation/JobReader.py:49 | a new reader has its profile and three empty field tables |
| Extraction.RulesOfUpdate | ReaderImplementation/JobReader.py:87-89 | writing a field into the three tables writes exactly that field's rule |
| JobReaders.JobReader.SetTagsFromUser | ReaderImplementation/JobReader.py:77-89 | the three tables get the field's tag, class and attribute, nothing else changes, and they keep one rule per field |
| JobReaders.JobReader.ConstructQueryURL | ReaderImplementation/JobReader.py:53-75 | the result is exactly the URL of the request specification, ValueError included |
| JobReaders.JobReader.AddFields | ReaderImplementation/JobReader.py:65-73 | the loop appends every field's segment to the URL, in request order |
| JobReaders.JobReader.AddField | ReaderImplementation/JobReader.py:66-73 | one pass appends that field's segment: nothing for an unknown or None key, otherwise `native=value&`, with the page offset for NumberOfPages |
| JobReaders.JobReader.GetUserDataFromJobPostDOM | ReaderImplementation/JobReader.py:150-166 | an unregistered field is absent; a registered one is looked up with its own tag, class and attribute |
| JobReaders.JobReader.Columns | ReaderImplementation/JobReader.py:191-204 | the fixed columns in order, then each requested non-fixed column once |
| JobReaders.JobReader.AddUserFields | ReaderImplementation/JobReader.py:249-255 | the column loop computes exactly the extra fields of the record specification |
| JobReaders.JobReader.CardRecord | ReaderImplementation/JobReader.py:237-255 | one card's record equals the record specification |
| JobReaders.JobReader.ListAllAvailableCompaniesInfo | ReaderImplementation/JobReader.py:226-259 | the card loop computes exactly the record table of the specification |
| JobReaders.JobReader.ListContents | ReaderImplementation/JobReader.py:206-224 | the table has a valid column list and the records of the cards under the container, or no rows without one |
| LegacyReaders.Reader.constructor | ReaderImplementation/Reader.py:30-51 | a reader is bound to its profile |
| LegacyReaders.Reader.ConstructQueryURL | ReaderImplementation/Reader.py:53-73 | writing `key=value` and `&` separately gives the same URL as JobReader |
| LegacyReaders.Reader.AddFields | ReaderImplementation/Reader.py:64-72 | the loop appends every field's segment to the URL, in request order |
| LegacyReaders.Reader.AddField | ReaderImplementation/Reader.py:65-72 | one pass appends `key=value`, then `&`, which is the field's segment; an unknown or None key appends nothing |
| LegacyReaders.Reader.CardRecord | ReaderImplementation/Reader.py:196-209 | one card's record equals Reader's record specification |
| LegacyReaders.Reader.ListAllAvailableCompaniesInfo | ReaderImplementation/Reader.py:177-212 | the card loop computes exactly Reader's table, without the display filter |
| LegacyReaders.Reader.ListJobContents | ReaderImplementation/Reader.py:159-173 | None without the container, otherwise Reader's table of its cards |
| History.Appended | Utility/HistoryList.py:39-50 | an insert never exceeds the cap, grows the list below it, and makes the new entry the newest |
| History.InsertAllKeepsLast | Utility/HistoryList.py:39-50 | after any run of inserts the list holds exactly the last `cap` of them, oldest first |
| History.NthMostRecent | Utility/HistoryList.py:71-81 | TypeError exactly for negative n; an entry exactly when 0 <= n <= size on a non-empty list |
| History.NewestAfterAppend | Utility/HistoryList.py:77-81 | the entry just inserted is the most recent one |
| History.AppendShifts | Utility/HistoryList.py:77-81 | an insert moves every surviving entry one place back in recency |
| History.DisplayStartsWithNewest | Utility/HistoryList.py:58-64 | the display opens with the size header and the newest entry as block 0 |
| History.DisplayAfterInsert | Utility/HistoryList.py:58-64 | after an insert below the cap the new entry is block 0 and the old ones follow, renumbered from 1 |
| History.Node.constructor | Utility/HistoryList.py:4-11 | a new node holds its data and no links |
| History.HistoryList.constructor | Utility/HistoryList.py:19-23 | a new list is empty, with its cap, and well linked |
| History.HistoryList.Add | Utility/HistoryList.py:25-52 | an insert keeps the list doubly linked and its entries become the capped append of the old ones |
| History.HistoryList.EvictHead | Utility/HistoryList.py:39-44 | Head moves to its successor and the oldest entry is dropped |
| History.HistoryList.AppendAtTail | Utility/HistoryList.py:46-50 | a new node is linked both ways after Tail and its entry is appended |
| History.HistoryList.ToString | Utility/HistoryList.py:54-65 | the walk from Tail gives the size header and the entries newest first with 0-based indices |
| History.HistoryList.RetrieveRecentNthQuery | Utility/HistoryList.py:67-81 | the walk from Tail returns the intended n-th most recent entry |
| HistoryAsWritten.SecondInsertRaises | Utility/HistoryList.py:49 | as written, the second insert into a new list raises NameError |
| HistoryAsWritten.TypoFixedKeepsEleven | Utility/HistoryList.py:33-50 | with only the typo fixed, the list keeps the last 11 inserts and Size is one below the entry count |
| HistoryAsWritten.HardCapIgnoresMaxSize | Utility/HistoryList.py:39 | with MaxSize 3, the intended list keeps 3 of 11 inserts while the code keeps 11 |
| HistoryAsWritten.RetrieveNewestFails | Utility/HistoryList.py:25-81 | on the lists the inserts build, asking for the newest entry raises AttributeError or gives None as written, while the intended lookup returns it |
| HistoryAsWritten.RetrieveNeverSucceeds | Utility/HistoryList.py:67-81 | as written, no lookup within the size returns an entry |
| Listing.Lookup | ListingImplementation/JobListing.py:49 | a field lookup is absent exactly when no field has the name, and otherwise gives a value of that name |
| Listing.PagesFor | ListingImplementation/JobListing.py:50-53 | a platform's pages are k tasks, task i carrying `ConstructQueryURL(params, i)`, or ValueError |
| Listing.PlanEntries | ListingImplementation/JobListing.py:45-56 | every planned task belongs to a registered platform |
| Listing.PlanTasks | ListingImplementation/JobListing.py:38-39 | a request that is not a dict raises TypeError |
| Listing.PlanConcat | ListingImplementation/JobListing.py:45-53 | tasks are grouped by platform in request order |
| Listing.UnknownPlatformAddsNothing | ListingImplementation/JobListing.py:45-56 | a platform without a reader contributes no task, wherever it stands |
| Listing.RegisteredPlatformTasks | ListingImplementation/JobListing.py:49-53 | a registered platform contributes exactly TotalPages tasks, for pages 0, 1, … in order |
| Listing.DefaultIsOnePage | ListingImplementation/JobListing.py:49 | without NumberOfPages a platform gets one page |
| Listing.NewColumns | TaskExecutor/TaskExecutor.py:17-18 | the new columns are exactly those of the appended table that were missing |
| Listing.AppendTable | TaskExecutor/TaskExecutor.py:17-18 | appending keeps the rows of both tables in order and every column of both |
| Listing.MergeErrExtends | TaskExecutor/TaskExecutor.py:15-18 | once a task in the order has failed, the merge fails the same way |
| Listing.MergeErrAt | TaskExecutor/TaskExecutor.py:15-18 | the first failing task in task order decides the merge's error |
| Listing.MergeKeepsAllRows | TaskExecutor/TaskExecutor.py:11-20 | when every task succeeds, the merged rows are all tasks' rows in task order |
| Listing.MergeKeepsColumns | TaskExecutor/TaskExecutor.py:11-20 | when all tables share one column list, so does the merge |
| Listing.PlatformTasks | ListingImplementation/JobListing.py:50-53 | the page loop computes exactly the platform's tasks |
| Listing.JobListing.constructor | ListingImplementation/JobListing.py:15-22 | readers exist exactly for LinkedIn and Indeed when named, with their profiles and no fields; no results yet; an empty history |
| Listing.JobListing.BuildTaskList | ListingImplementation/JobListing.py:38-56 | the nested loops compute exactly the planned task list |
| Listing.JobListing.RunOne | ListingImplementation/JobListing.py:74-81 | one task fetches its page and lists it with the fixed columns |
| Listing.JobListing.RunTasks | ListingImplementation/JobListing.py:58 | the result is the in-order merge of the tasks' tables |
| Listing.JobListing.SendRequests | ListingImplementation/JobListing.py:32-65 | the result is the plan's merged tables; on success it becomes the last results (what `Results` returns) and is appended to the history; on an error nothing changes |

## Left out

- HTTP (`requests.get` in `__Send__`) and the BeautifulSoup parse: they are foreign code. They are the `fetch` parameter, and the parsed page is the `Dom.Node` tree.
- Reader's pre-parse `replace` of the content: it only feeds the parser.
- pandas: a DataFrame is a column list and a sequence of maps. When rows of different shapes are appended, pandas fills the missing cells with NaN; the model keeps each record's own keys. `reset_index(drop=True)` has no effect, as its result is discarded, so it is not modelled.
- The thread pool: `SendParallelRequest` becomes the in-order merge. The stray `Executor.submit(Method, len(URLParamList))` calls `__Send__` with an integer. That raises TypeError inside a future whose result is never read, so it has no observable effect.
- `importlib` loading: readers are constructed with a static `Profile`.
- `FileHandle`, `StoreCurrResults`, `print` diagnostics and `time()`: file output, console output and clock.
- `CreateSession` is a stub, and `SetNewData` references `self.Reader`, which does not exist. Extra fields are registered with `JobReader.SetTagsFromUser` directly.
- `PrintRecentHistory` only prints; the string it prints is `History.HistoryList.ToString`.
- The `IReader` interface and the `__init__.py` entry script contain no logic.
- The `DOMNotFoundException` branches: `findAll` never returns None, so they cannot be reached.
- Reader's constructor also sets `ToDisplay` and `QueryParams`. In the model these are `LegacyExtraction.LegacyDisplay` and `QueryBuilder.QueryParams`.
- Strings.Strip: whitespace is Python's `str.isspace` code-point set. Unicode normalisation is not modelled.
- Request values are strings or integers (`ParamValue`). Other Python types (floats, lists) are not modelled. A dict with duplicate keys cannot occur in Python; `Listing.Lookup` takes the first one.
- JobReaders.JobReader.ListContents: promises some valid column list, not the order of the extra columns, because the source lists a Python set, whose iteration order is unspecified.
- JobReaders.JobReader.Columns: the same; the extras come in no promised order.
- LegacyReaders.Reader.ListJobContents: takes no `ToDisplay` argument either; it only forwards it to `ListAllAvailableCompaniesInfo` (Reader.py:159, 170).
- LegacyReaders.Reader.ListAllAvailableCompaniesInfo: takes no `ToDisplay` argument. The display filter raises as written and its result is never used; the as-written form is `LegacyExtraction.ListAllLegacyAsWritten`.
- Listing.JobListing.constructor: requires a history size of at least 1, because the intended list cannot hold a cap of 0 (the code as written ignores `MaxSize`). The `website=['LinkedIn']` default is left to the caller.
- History.HistoryList.constructor: requires a cap of at least 1, for the same reason.
- Listing.JobListing.SendRequests: uses the intended `History.HistoryList.Add`. As written, the second successful call raises NameError from the history insert after `QueryResults` was set (see Findings).
- Listing.JobListing.RunOne: always uses the fixed columns, since `__Send__` passes no `ToDisplay`.
- History.NthMostRecent: on an empty list, n = 0 gives None. The code, even repaired, passes the size check (0 > 0 is false) and reads `.data` of a None Tail, which raises AttributeError. The model repairs this to the documented "returns None".
- History.HistoryList.RetrieveRecentNthQuery: the same repair for n = 0 on an empty list, as it returns `History.NthMostRecent`.
- History.HistoryList.Add: with a cap of 1, the intended eviction sets Head to None (Head.NextData) and then `self.Head.PreviousData = None` raises AttributeError. The model repairs this so that the new entry replaces the old one. Caps of 2 or more follow the code.
- Dom.Matches: a class filter matches one token of the node's class list. BeautifulSoup's `class_` also accepts a value with spaces, matched against the whole class attribute; no profile uses such a value.

## Findings

| source | as written | input that shows it | evidently intended | confidence | as-written member | corrected member |
|---|---|---|---|---|---|---|
| ReaderImplementation/JobReader.py:197-200 | removes fixed names from the set it is iterating | `Columns(["JobTitle", "Salary"])` raises RuntimeError | drop the fixed names from a copy, giving the fixed columns then `Salary` | high, not executed | Extraction.ColumnsAsWrittenRaises | JobReaders.JobReader.Columns |
| ReaderImplementation/Reader.py:188-191 | removes unknown names from the set it is iterating | `ListAllAvailableCompaniesInfo(cards, ["JobTitle", "Salary"])` raises RuntimeError | a filter with no effect on the table | high, not executed | LegacyExtraction.DisplayFilterRaises | LegacyReaders.Reader.ListAllAvailableCompaniesInfo |
| Utility/HistoryList.py:49 | `self.Tail = newData`, an undefined name | a second insert into a new list raises NameError | `self.Tail = NewData` | high, not executed | HistoryAsWritten.SecondInsertRaises | History.HistoryList.Add |
| Utility/HistoryList.py:33-34 | the first insert leaves `Size` at 0 | with the typo fixed, 11 inserts give 11 entries and `Size` 10 | `Size` equals the entry count | high, not executed | HistoryAsWritten.TypoFixedKeepsEleven | History.HistoryList.Add |
| Utility/HistoryList.py:39 | the cap is the literal 10, not `MaxSize` | with `MaxSize` 3, 11 inserts keep 11 entries | keep the last `MaxSize` entries | high, not executed | HistoryAsWritten.HardCapIgnoresMaxSize | History.InsertAllKeepsLast |
| Utility/HistoryList.py:77-81 | the loop walks `NextData` from Tail without decrementing n, then reads `.Data` | after one insert, `RetrieveRecentNthQuery(0)` raises AttributeError and `RetrieveRecentNthQuery(1)` returns None (Size is 0); with the `newData` typo repaired, after two inserts `RetrieveRecentNthQuery(1)` raises AttributeError | walk `PreviousData` n − 1 times and return `.data` | high, not executed | HistoryAsWritten.RetrieveNewestFails | History.HistoryList.RetrieveRecentNthQuery |
| ReaderImplementation/Constants/LinkedInReaderConstants.py:25 | `','.join` over integers | `EXP_VALUE(["Internship"])` raises TypeError | join the codes as decimal strings | high, not executed | SiteProfiles.ExpValueAsWrittenRaises | SiteProfiles.ExpValue |
