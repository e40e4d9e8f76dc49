# vsingerd, modelled in Dafny

vsingerd polls the Weibo feeds of a list of users and forwards every new
post. This project models the core of its decision logic:

- the `Message` record and its `__str__` text;
- the Telegram subscriber: the notification text, the three-attempt retry
  and back-off loop around every Bot API call, the rule that decides which
  pictures are sent, and `send_messages`, which isolates one message from
  the next;
- the CSV subscriber: the `index.csv` ledger and the picture mirror under
  `images/`;
- the legacy crawler in `vsingerd.py`:
  - the `Indexer` of known links;
  - the conversion of feed cards into messages, which saves each new post
    on the way;
  - the older Telegram sender, which never retries;
  - `run` and `run_all`.

Everything the program reads from outside is an input sequence consumed in
order. That covers Bot API replies, picture downloads, feed pages and
long-text expansions. An exhausted sequence answers with a failure. What
the program does to the outside is a trace of `Post(call)` and
`Sleep(seconds)` actions, plus a `Disk` value:
- whether the base and `images` directories exist;
- the lines of the index file;
- the picture files by name.

An exception that escapes an operation is the `raised` part of its result.
Every `try`/`except` is placed where the source has it.

Modules:
- `Text`: `str(int)`, `int()`, `str.strip`, `os.path.basename`.
- `JsonString`: `json.dumps` of a string with `ensure_ascii=False`, as in
  section 7 of RFC 8259, and a decoder for the round trip.
- `Model`: `Message`, and Python's `repr` of strings and string lists.
- `Effects`: calls, replies, fetches, index lines and the photo split rule.
- `Telegram`: `subscriber/telegram.py`.
- `Mirror`: the data directory and the picture loop, which both
  programs share.
- `Ledger`: `subscriber/csv.py`.
- `Weibo`: feed data, links, the index lookup, `tweet_to_message` and
  `parse_activity_cards` as specification functions.
- `Crawler`: the `Indexer` and `Creeper` classes, whose methods are proved
  against the `Weibo` and `Crawler` functions.

The stateful parts are classes whose methods are proved against these
specification functions:
- `Ledger.CsvSubscriber`;
- `Crawler.Indexer`;
- `Crawler.Creeper`.

The loop methods are proved against specification functions of the
remaining replies or fetches:
- `Telegram.RequestTelegramApi`;
- `SendPhotoMessage`;
- `SendMessage`;
- `SendMessages`.

Where the code does something its authors evidently did not intend, the
model follows the code:
- With one or two pictures, only the first one is sent. The `return` sits
  inside the loop.
- A repost, `weibo_position` 3, raises `KeyError` on the missing `title`
  key. The whole visit of that user then ends before anything is sent.
- A failed picture download leaves an empty file behind. The file was
  opened `wb+` before the GET.
- The crawler's index is read once at start-up. A post seen twice in one
  run is saved and sent twice.

## Model

| member | source | states |
|---|---|---|
| Model.NewMessage | src/model.py:5-11 | Without `images` the picture list is empty; the other four fields are the arguments. |
| Model.Render | src/model.py:13-18 | `str(m)` is the first line `Message(author=…, link=…, update_at=…,`, one line feed, then `content=…,images=[…]`. It ends with `]`, with no closing parenthesis. |
| Model.StrRepr | src/model.py:17 | `repr` of a picture URL starts and ends with the same quote, the one Python picks, and holds no raw line feed. |
| Model.ListRepr | src/model.py:17 | `repr` of the picture list is bracketed and holds no raw line feed. |
| Model.RenderTwoLines | src/model.py:14-17 | When author, link and content have no line feed, the only line feed of `str(m)` is the one after the first part. The adjacent f-strings are one part. |
| Text.IntTextRoundTrip | src/subscriber/csv.py:43 | `str` of an integer reads back as that integer. |
| Text.StripIdempotent | src/vsingerd.py:34 | Stripping twice is stripping once. |
| Text.StripDecompose | src/vsingerd.py:34 | `strip` removes only whitespace, and only at the two ends. |
| Text.BasenameSuffix | src/subscriber/csv.py:46 | The basename is the suffix of the URL after its last `/`, or the whole URL when it has none. |
| JsonString.Dumps | src/subscriber/csv.py:41 | The content cell is quoted at both ends and holds no raw line break. |
| JsonString.DumpsRoundTrip | src/subscriber/csv.py:41 | The JSON literal of the content decodes back to the content. |
| Telegram.FormatMessageLayout | src/subscriber/telegram.py:11-18 | The text starts with `author: `, ends with a line feed and the content, and has a tag right after `author: ` exactly when there are pictures. |
| Telegram.FormatMessageTag | src/subscriber/telegram.py:14-17 | With pictures, `[n图]` follows `author: `, n reads back as the picture count, and the `北京时间 ` line comes next. |
| Telegram.RequestTelegramApi | src/subscriber/telegram.py:43-62 | The loop produces exactly the trace, remaining replies and exception that the `Request` specification gives for three attempts. |
| Telegram.RequestPosts | src/subscriber/telegram.py:44-48 | At most `retries` POSTs, at least one when an attempt is left, and each POST consumes one reply. |
| Telegram.RequestPacing | src/subscriber/telegram.py:50 | Every POST is followed at once by a one-second sleep. Only a POST whose transport failed, and which raised, is not. |
| Telegram.RequestRetriesOnlyRetryable | src/subscriber/telegram.py:45-62 | Another POST happens only after a retryable reply: every reply before the last was not 200, not 404, JSON, and had a valid back-off. |
| Telegram.RequestGivesUpQuietly | src/subscriber/telegram.py:44-62 | When every reply is retryable, all three attempts are used and the call returns without an exception. |
| Telegram.RequestStops | src/subscriber/telegram.py:51-56 | A 200, or a 404 with a JSON body, ends the call after one POST and its sleep. |
| Telegram.TooManyRequestsExample | src/subscriber/telegram.py:57-62 | A 429 with `retry_after` 5 adds a five-second sleep after the one-second sleep, also after the last attempt. |
| Telegram.RequestAllPosts | src/subscriber/telegram.py:38-41 | A sequence of calls makes at most three POSTs per call. |
| Telegram.SendPhotoMessage | src/subscriber/telegram.py:37-41 | One `sendPhoto` per URL, in order; the first exception ends the loop. |
| Telegram.PhotoCalls | src/subscriber/telegram.py:38-41 | The i-th photo call carries the i-th URL. |
| Telegram.MessagePhotoCalls | src/subscriber/telegram.py:64-72 | The text goes first. Then there are no photos, only the first picture (one or two pictures), or every picture in order (three or more). |
| Telegram.SendMessage | src/subscriber/telegram.py:64-72 | The method makes exactly the calls of `MessageCalls`, through the retry loop, stopping at the first exception. |
| Telegram.SendAllIsolation | src/subscriber/telegram.py:75-85 | `send_messages` never raises. Each message's part of the trace starts with the POST of its own text, whatever happened before, and the parts follow list order. |
| Telegram.SendMessages | src/subscriber/telegram.py:75-85 | The loop produces the trace and remaining replies of `SendAll`. |
| Effects.PhotoUrls | src/subscriber/telegram.py:64-72 | The URLs sent are none, the first picture only, or all pictures in order. |
| Effects.PhotoSplitSizes | src/subscriber/telegram.py:70-72 | From three pictures on, the split at `int(n / 2)` gives two non-empty halves, the first no larger than the second. |
| Ledger.EnsureCreated | src/subscriber/csv.py:17-24 | Both directories exist afterwards. A missing index is created holding only the header; an existing one is kept. |
| Ledger.EnsureCreatedIdempotent | src/subscriber/csv.py:17-24 | Creating the database twice is creating it once. |
| Ledger.RowReadsBack | src/subscriber/csv.py:39-44 | The row's cells read back as author, content (through JSON), link and post time. The content cell is one quoted literal with no raw line break. |
| Ledger.DeliverAppendsRow | src/subscriber/csv.py:36-53 | The row is appended behind the earlier lines and stays there whatever happens to the pictures. |
| Ledger.DeliverAllRows | src/subscriber/csv.py:56-67 | One row per message, in list order, behind the existing lines, even for messages whose pictures failed. |
| Ledger.DeliverAllCreates | src/subscriber/csv.py:56-67 | With at least one message, the index is created first and then gets one row per message. |
| Ledger.CsvSubscriber.constructor | src/subscriber/csv.py:28-33 | The subscriber's disk is the given disk after `ensure_database_created`. |
| Ledger.CsvSubscriber.EnsureDatabaseCreated | src/subscriber/csv.py:17-24 | The object's disk becomes `EnsureCreated` of its old disk. |
| Ledger.CsvSubscriber.SendMessage | src/subscriber/csv.py:35-53 | The new disk, remaining downloads and exception are those of `Deliver`: row first, then each picture under its basename. |
| Ledger.CsvSubscriber.SendMessages | src/subscriber/csv.py:56-68 | The new disk is that of `DeliverAll`, and no exception escapes. |
| Mirror.NamesAt | src/subscriber/csv.py:45-47 | The i-th file name is the basename of the i-th picture URL. |
| Mirror.SaveImagesConcat | src/subscriber/csv.py:45-52 | Saving `a + b` is saving `a`, then `b` if nothing raised. |
| Mirror.FailedFetchLeavesEmptyFile | src/subscriber/csv.py:48-52 | A failed download leaves that picture's file empty, skips the later pictures, and raises. |
| Mirror.SaveImagesKeys | src/subscriber/csv.py:45-52 | Every file afterwards was there before or carries the basename of one of the pictures. |
| Mirror.SaveImagesUntouched | src/subscriber/csv.py:45-52 | A file whose name no picture carries keeps its bytes. |
| Mirror.LastWriteWins | src/subscriber/csv.py:45-52 | When the downloads succeed, the last picture with a given basename decides that file's bytes. |
| Weibo.NoBreakTagLeft | src/vsingerd.py:137 | No `<br />` is left after the replacement, not even one formed across a replaced tag. |
| Weibo.ReplaceBreaksPlain | src/vsingerd.py:137 | Text without `<` is unchanged. |
| Weibo.PictureUrlsIff | src/vsingerd.py:138-139 | The URL list exists exactly when every picture has a URL. It then holds those URLs in order. |
| Weibo.NonBlankMembers | src/vsingerd.py:138-139 | The filter keeps exactly the URLs that are not blank. |
| Weibo.NonBlankConcat | src/vsingerd.py:138-139 | Filtering a concatenation filters each part. |
| Weibo.BlankIff | src/vsingerd.py:138 | A URL is dropped exactly when `url.strip()` is empty. |
| Weibo.LinkReadsBack | src/vsingerd.py:132 | The link is `https://weibo.com/`, the user id (which reads back), `/`, then the `bid` (empty when absent). |
| Weibo.KnownIgnoresSpace | src/vsingerd.py:32-36 | Surrounding whitespace of the looked-up link does not matter. |
| Weibo.CreateIndex | src/vsingerd.py:18-24 | The data directory exists afterwards. A missing index is created with the header only; the pictures are untouched. |
| Weibo.WriteAppendsRecord | src/vsingerd.py:38-48 | One record is appended behind the existing lines, stamped with the clock reading. Its content cell decodes back to the content. |
| Weibo.ConvertKnownSkips | src/vsingerd.py:132-134 | An indexed post is dropped before anything else is read, even a missing text. Nothing is saved or raised. |
| Weibo.ConvertSaves | src/vsingerd.py:131-154 | A new post that is not a repost gives a message with the author (or `?`), the extracted text, the link, and the picture URLs with the blank ones removed, in order and with duplicates kept. One record is appended, the pictures directory exists, and nothing escapes. |
| Weibo.ConvertRepostRaises | src/vsingerd.py:144-149 | A new repost raises before anything is saved. |
| Weibo.ConvertTwice | src/vsingerd.py:38-48 | The index rows are not refreshed: converting the same post again gives the same message and one more record. |
| Weibo.ParseEntries | src/vsingerd.py:112-129 | At most one message per card, each under a link of this user. |
| Weibo.ParseConcat | src/vsingerd.py:112-129 | Parsing `a + b` is parsing `a`, then `b` from the world `a` left, unless `a` raised; the messages of `a` come first, so the survivors keep card order. |
| Weibo.ReadCardExpansionFailed | src/vsingerd.py:118-124 | A long post whose expansion request fails is skipped: the expansion is consumed, nothing is converted, saved or raised. |
| Weibo.ParseSkipsEmptyCard | src/vsingerd.py:115-117 | A card without `mblog` changes nothing. |
| Weibo.ParseDuplicateCard | src/vsingerd.py:112-129 | The same short post twice in one feed gives the same message twice. |
| Crawler.PostAllFrame | src/vsingerd.py:64-87 | The old sender reads replies and touches nothing else. |
| Crawler.PostAllTrace | src/vsingerd.py:64-87 | Without an exception, each POST is followed by the two-second sleep. With one, the raising POST is the last action and the later calls are not made. |
| Crawler.LegacyTextLayout | src/vsingerd.py:90-93 | The text is the author, a fullwidth colon, the tag exactly when there are pictures, a line feed and the content. |
| Crawler.LegacyPhotoCalls | src/vsingerd.py:94-101 | The text goes first, then no photo, only the first picture, or every picture in order. |
| Crawler.PostAllConcat | src/vsingerd.py:89-101 | Sending `a + b` is sending `a`, then `b` if nothing raised. |
| Crawler.SendEachIsPostAll | src/vsingerd.py:167-168 | Sending the messages one by one is sending all their calls as one sequence. |
| Crawler.ReverseAt | src/vsingerd.py:161 | The cards are walked from the oldest: position i holds card n-1-i. |
| Crawler.VisitPageFailed | src/vsingerd.py:160-164 | A feed that cannot be fetched or read ends the visit quietly, with nothing sent or written. |
| Crawler.VisitParseFailed | src/vsingerd.py:166-168 | When a card raises, nothing of this user is sent, the exception escapes, and the world is the one the walk left, so what the cards before it saved stays on disk. |
| Crawler.VisitExtends | src/vsingerd.py:156-168 | `run` only appends to the trace. |
| Crawler.CrawlSegments | src/vsingerd.py:170-179 | The trace of `run_all` is one segment per user, in the configured order. |
| Crawler.SegmentsEndWithRest | src/vsingerd.py:177-178 | Every user's segment ends with the fifteen-second rest, also for a user whose visit raised. |
| Crawler.Indexer.constructor | src/vsingerd.py:26-30 | The rows are the lines of the index, created first when missing; the header counts as a row. |
| Crawler.Indexer.Exist | src/vsingerd.py:32-36 | True exactly when some row's stripped link equals the stripped argument. |
| Crawler.Creeper.constructor | src/vsingerd.py:58-62 | The index is created when missing and loaded into the indexer. The configured ids, clock and extractor are the ones given, and the trace is empty. |
| Crawler.Creeper.EnsureDatabaseCreated | src/vsingerd.py:18-24 | The disk becomes `CreateIndex` of the old disk; nothing else changes. |
| Crawler.Creeper.IndexWrite | src/vsingerd.py:38-48 | The disk becomes `Write` of the old disk; the indexer's rows are not touched. |
| Crawler.Creeper.SendTelegramMessage | src/vsingerd.py:64-77 | One POST, then a two-second sleep, unless the transport failed or an error body is not JSON; then it raises. |
| Crawler.Creeper.SendTelegramPhotos | src/vsingerd.py:79-87 | The state after the loop is that of `PostAll` over one photo call per URL. |
| Crawler.Creeper.SendMessage | src/vsingerd.py:89-101 | The state after the method is that of `PostAll` over `LegacyCalls`: the text, then the pictures by the photo rule. |
| Crawler.Creeper.SaveMessage | src/vsingerd.py:103-110 | The world after the method is that of `Save`: the record, the `images` directory, then each picture. The trace is unchanged. |
| Crawler.Creeper.TweetToMessage | src/vsingerd.py:131-154 | The message, exception and new world are those of `Convert` over the rows loaded at start-up. |
| Crawler.Creeper.ReadCard | src/vsingerd.py:114-128 | One pass of the card loop, as `Weibo.ReadCard`: skip, expand a long post, then convert. |
| Crawler.Creeper.ParseActivityCards | src/vsingerd.py:112-129 | The messages, exception and world are those of `Parse`: card order, first exception ends the walk. |
| Crawler.Creeper.Run | src/vsingerd.py:156-168 | The state and exception after `run` are those of `Visit`. |
| Crawler.Creeper.RunAll | src/vsingerd.py:170-179 | The state after `run_all` is `Crawl` over the configured users: every user in order, each followed by the rest, exceptions caught. |

## Left out

- `ISubscriber` (`src/subscriber/__init__.py`): this abstract base class has no behaviour, and the model has no trait for it. The two subscribers are separate modules.
- HTTP transport and `res.json()`: replies, downloads, feed pages and expansions are input sequences of outcomes. A reply body is JSON (with its `retry_after`) or not JSON.
- Bot API endpoints, token and chat id: a call records only its method (`sendMessage` or `sendPhoto`), its text or photo URL, and the link button.
- The long-text expansion URL: an expansion answer is the next element of its input sequence.
- `datetime`/`strftime` in `format_message`: an opaque `clock` function applied to the post time plus eight hours.
- `time.time()` in `Indexer.write`: an opaque `clock(n)` text, where n is the number of index lines before the write.
- BeautifulSoup `get_text`: an opaque `extract` function. Only the `<br />` replacement before it is modelled.
- `time.sleep`: recorded as `Sleep` actions, not performed.
- CSV quoting and parsing: index lines are records with four text cells. Reading the file back gives the lines that were written.
- Filesystem failures other than a picture name that denotes a directory (empty, `.` or `..`): all other opens and `makedirs` calls succeed.
- `print` and `traceback` output.
- Process start-up (environment variables, `die`, `__main__`).
- `Model.StrRepr`: Python's `repr` escapes of non-printable characters beyond ASCII are not distinguished. Every character outside the ASCII controls is taken as printable.
- `Telegram.RequestTelegramApi`: a `retry_after` that is a JSON float (`int()` truncates it) is not modelled. Only integer values, absent values and values `int()` rejects are.
- `Weibo.Tweet`: a `bid` that is JSON null or a number, and a `user` or `pics` entry that is null, are not modelled. A missing key takes the default the code gives it.
- `Crawler.Crawl`: stated over any visit function, so that `run_all`'s ordering and isolation are proved independently of `run`. `Crawler.Visitor` instantiates it with `run`.
