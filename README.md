# youtube-analyzer ingestion pipeline, modelled in Dafny

This project models the ingestion pipeline of `YouTubeService`
(`youtube/services/youtube.py`) and the record shapes it writes
(`youtube/models.py`). The pipeline:

1. looks a channel up by handle or id and upserts it;
2. finds the channel's uploads playlist;
3. walks that playlist page by page, following the continuation tokens;
4. for every page:
   - fetches the video details in one batch;
   - merges every playlist item with its detail entry and its transcript;
   - saves each merged record.

Saving a record means the following:

- the Video row is upserted by `youtube_id`;
- one VideoMetrics row is appended;
- a Transcript row is get-or-created.

The remote services are oracles, held in a `Service.Api` value:

- the channels.list answers;
- the uploads playlist lookup;
- the sequence of playlistItems pages;
- the videos.list answers;
- what the transcript library returns or raises for a video.

The database is the class `Service.Store`. Its four tables are fields that the operations update in place.

Modules, one file each:

| module | file | what it holds |
|---|---|---|
| `Builtins` | `builtins.dfy` | Python's `int()` on a `str` with the whitespace it skips, `rstrip`, slicing with a possibly negative bound, and the exceptions the code raises |
| `Models` | `models.dfy` | the rows of the four tables; the store invariant (referential integrity, at most one transcript per video); the metrics history order; the `__str__` formats; field defaults and NOT NULL columns |
| `Duration` | `duration.dfy` | `_parse_duration`, and an encoder for `PT#H#M#S` that it is proved against |
| `Transcripts` | `transcript.dfy` | the pure core of `_fetch_transcript`, and a space split that inverts the join |
| `Merge` | `merge.dfy` | `details_map`, `process_video`, and `asyncio.gather` as an in-order map that fails with the first exception |
| `Persistence` | `persistence.dfy` | the save loop as functions on the tables, with its invariants, and the create path as written against as intended |
| `Channels` | `channel.dfy` | `get_channel_data`, the uploads playlist lookup, and the channel upsert |
| `Service` | `service.dfy` | the `Store` class with the imperative loops, and the crawl specification with its lemmas |

The model follows the code in these points. The one place where it does not is the create path of the Video upsert. `Persistence.SaveRecord`, and through it `Service.Store.SaveVideo` and the crawl, save a new video with the corrected create. As written, the first sighting of a video raises IntegrityError. That exception aborts the save loop, the page and the crawl, and the records and pages saved before it stay saved (## Findings).

- One exception in `process_video` propagates out of the gather; it aborts the page and the whole crawl (`Merge.GatherFirstError`, `Service.Store.CrawlPlaylist`).
- `int()` accepts a sign, so `_parse_duration` returns an `int`. It is non-negative only when the text has no `-` (`Duration.ParseDurationUnsigned`).
- `"P1D"` is read as 0 seconds (`Duration.DayPartAloneIsZero`). A day part followed by a time component does raise (`Duration.DayPartRejected`).
- Every exception from the transcript library gives "no transcript" (`Transcripts.RaisedMeansNone`).
- `max_results` truncates only the returned list. Every page merged has already been saved in full (`Service.CrawlPersistsRecords`).
- The code has no ceiling on the number of items and does not retry a conflicting insert.
- Items are returned in input order, because `gather` keeps it.

## Model

| member | source | states |
|---|---|---|
| Builtins.ParseInt | youtube/services/youtube.py:96-97 | `int()` either gives a number or raises ValueError naming the text it could not read |
| Builtins.ParseIntShow | youtube/services/youtube.py:96-97 | `int()` reads a decimal numeral written by `str()` back as the number it spells |
| Builtins.ParseIntRejects | youtube/services/youtube.py:96-97 | a character that is not whitespace `int()` skips, a sign, a digit or an underscore makes `int()` raise, wherever it stands |
| Builtins.ParseIntUnsigned | youtube/services/youtube.py:96-97 | without a minus sign, `int()` never gives a negative number |
| Builtins.SeparatorNotSkipped | youtube/services/youtube.py:96-97 | the separator characters U+001C to U+001F are not whitespace to `int()`: `int("\x1c5")` raises |
| Builtins.CountField | youtube/services/youtube.py:96-97 | `int(d.get(key, 0))`: a missing count is 0; a present one is read by `int()`, error included |
| Builtins.RStrip | youtube/services/youtube.py:272 | `s.rstrip(c)` is a prefix of `s` that does not end in `c`, and everything it drops is `c` |
| Builtins.PyPrefix | youtube/services/youtube.py:209 | `s[:m]` is a prefix of `s`; its length is `min(m, len(s))` for `m >= 0` and counts from the end for negative `m` |
| Models.ChannelLabel | youtube/models.py:12-13 | a channel renders as `title (youtube_id)` |
| Models.VideoLabel | youtube/models.py:27-28 | a video renders as `title (youtube_id)` |
| Models.TranscriptLabel | youtube/models.py:50-51 | a transcript renders as `Transcript for <video title> (<language>)`, using the title of the video it references |
| Models.LabelInjective | youtube/models.py:12-13 | when the key holds no `(`, the rendering determines both title and key: two equal renderings have equal titles and keys |
| Models.Valid | youtube/models.py:17-44 | every video's channel, every metrics row's video and every transcript's video is in the store, and no video has two transcripts |
| Models.History | youtube/models.py:38 | a video's history holds only that video's metrics rows, and no more rows than the table |
| Models.HistoryAppend | youtube/models.py:38 | rows appended later come first in a video's history (newest `captured_at` first); the older rows follow in their own order |
| Models.NewVideo | youtube/models.py:15-25 | a Video built without `view_count`/`like_count` gets 0 for each, and given values are kept; `published_at`, `duration` and `channel` stay NULL unless supplied |
| Models.Insert | youtube/models.py:17-23 | saving a new Video succeeds exactly when `channel`, `published_at` and `duration` are non-NULL, and writes those values; otherwise it raises IntegrityError |
| Models.NewTranscript | youtube/models.py:43-47 | `is_generated` defaults to False; the video, content and language are those given |
| Duration.ParseDuration | youtube/services/youtube.py:255-278 | every failure of the parser is a ValueError |
| Duration.ParseEncoded | youtube/services/youtube.py:260-278 | for digit components in the order H, M, S, each optional, `PT[hH][mM][sS]` parses to `3600h + 60m + s`; absent components count 0, so `"PT"` is 0 |
| Duration.ParseShown | youtube/services/youtube.py:260-278 | the same, for components written by `str()` from natural numbers |
| Duration.ParseExample | youtube/services/youtube.py:260-278 | `"PT1H2M3S"` is 3723 seconds |
| Duration.HourMarkerWithoutNumeral | youtube/services/youtube.py:263-265 | an `H` with no numeral before it raises, whatever follows |
| Duration.MinuteMarkerWithoutNumeral | youtube/services/youtube.py:263-269 | an `M` with no numeral before it raises, whatever follows it, whether or not an hours component precedes it (`"PTM5S"`, `"PT1HM5S"`) |
| Duration.SecondMarkerWithoutNumeral | youtube/services/youtube.py:263-272 | an `S` with no numeral before it raises, whatever follows it, after any hours and minutes components or none (`"PTS"`, `"PT1H2MS"`) |
| Duration.EmptyMinutesExample | youtube/services/youtube.py:267-269 | `"PT1HM5S"` raises |
| Duration.EmptySecondsExample | youtube/services/youtube.py:271-272 | `"PT1H2MS"` raises |
| Duration.DayPartRejected | youtube/services/youtube.py:260-278 | a day part `P<d>D` followed by any non-empty `T` part raises |
| Duration.DayPartAloneIsZero | youtube/services/youtube.py:260-278 | a day part alone, `P<d>D`, is read as 0 seconds |
| Duration.ParseDurationUnsigned | youtube/services/youtube.py:260-278 | a duration with no `-` parses, if at all, to a non-negative number |
| Transcripts.Texts | youtube/services/youtube.py:40 | the texts of the entries in order, or none when some entry has no `text` (the KeyError the join would raise) |
| Transcripts.JoinWithSpaces | youtube/services/youtube.py:40 | `" ".join`; `Transcripts.SplitJoin`, `Transcripts.JoinLength` and `Transcripts.JoinAppend` state what it gives |
| Transcripts.FetchTranscript | youtube/services/youtube.py:28-63 | a transcript exactly when the captions came back non-empty, every entry has a text, and the generated English track was found; its content is the texts joined by single spaces; language and flag are the track's |
| Transcripts.RaisedMeansNone | youtube/services/youtube.py:56-63 | any exception from the library gives no transcript rather than being raised |
| Transcripts.SplitJoin | youtube/services/youtube.py:40 | splitting the joined texts on spaces gives the texts back, when no text holds a space |
| Transcripts.JoinLength | youtube/services/youtube.py:40 | the join is as long as the texts plus one separator between each neighbouring pair |
| Transcripts.JoinAppend | youtube/services/youtube.py:40 | joining two runs is joining each with one space between |
| Transcripts.ContentSplitsBack | youtube/services/youtube.py:40-54 | the content of a transcript built from space-free texts splits back into those texts |
| Merge.VideoIds | youtube/services/youtube.py:74 | one id per item, in order, each the item's `videoId` |
| Merge.DetailsMap | youtube/services/youtube.py:78 | every detail entry's id is a key |
| Merge.DetailsMapKeys | youtube/services/youtube.py:78 | every key maps to an entry that has that id and that came from the response |
| Merge.DetailsMapLastWins | youtube/services/youtube.py:78 | when an id repeats, the last entry with it wins |
| Merge.ProcessVideo | youtube/services/youtube.py:81-100 | the record exists exactly when `videoPublishedAt` is present, both counts pass `int()` and the duration parses; a missing `videoPublishedAt` raises KeyError first; the record carries the item's id, title, description and publish time, the parsed counts and duration, and the transcript |
| Merge.DurationOf | youtube/services/youtube.py:98 | the duration text of the details entry, or `"PT0S"` when there is no entry or it has none; `Merge.MissingDetailsDefaults` and `Merge.DefaultDurationIsZero` state what it parses to |
| Merge.DefaultDurationIsZero | youtube/services/youtube.py:98 | the default duration `"PT0S"` is 0 seconds |
| Merge.MissingDetailsDefaults | youtube/services/youtube.py:83-98 | an item absent from the details response is kept, with both counts 0 and duration 0 |
| Merge.Gather | youtube/services/youtube.py:103-105 | the gather succeeds exactly when every awaitable does, and then gives their values in input order |
| Merge.GatherFirstError | youtube/services/youtube.py:103-105 | a failing gather raises the exception of the first failing awaitable |
| Merge.MergeEach | youtube/services/youtube.py:103-105 | one outcome per item, in order, each the merge of that item |
| Merge.BatchInOrder | youtube/services/youtube.py:103-105 | a successful page gives one record per item, in input order, each with its item's id |
| Merge.BatchRecords | youtube/services/youtube.py:74-105 | the page's merge: ids, one details request, the details map, a merge per item and the gather; `Merge.BatchInOrder` and `Service.Store.ProcessVideoBatch` state what it gives |
| Merge.Statics | youtube/services/youtube.py:108-116 | what the pops leave of each record: its static fields, one per record, in order |
| Persistence.SaveRecord | youtube/services/youtube.py:109-155 | one iteration of the save loop on the tables; `Persistence.SaveRecordEffect` and `Persistence.SaveRecordValid` state its effect |
| Persistence.SaveAll | youtube/services/youtube.py:108-155 | the save loop on the tables, record by record in order; `Persistence.SaveAllValid` to `Persistence.SaveAllTwice` state its effect |
| Persistence.SaveRecordEffect | youtube/services/youtube.py:118-155 | one save: channels untouched; the video's row is created or updated, with channel and counts written and the static fields kept on an existing row or taken from the record on a new one; no other video changes and no duplicate key appears; one metrics row with the counts just written is appended; a transcript row is appended exactly when the record carries one and the video has none |
| Persistence.SaveRecordValid | youtube/services/youtube.py:118-155 | saving into a valid store, for a channel in it, keeps every reference valid and at most one transcript per video |
| Persistence.SaveAllValid | youtube/services/youtube.py:108-155 | the whole save loop keeps the store valid and leaves the channels unchanged |
| Persistence.SaveAllAppend | youtube/services/youtube.py:108-155 | saving two runs one after the other is saving their concatenation |
| Persistence.MetricsOf | youtube/services/youtube.py:139-145 | one metrics row per record, in order, with the record's counts |
| Persistence.SaveAllMetrics | youtube/services/youtube.py:139-145 | the loop appends exactly one metrics row per record, after the existing rows, which stay as they were |
| Persistence.SaveAllLedger | youtube/services/youtube.py:139-145 | if each video's newest metrics row holds its current counts, that still holds after the loop |
| Persistence.SaveAllVideo | youtube/services/youtube.py:118-136 | after the loop, a video no record names is untouched; a named video has the saving channel and the counts of its last record; its static fields are those it had, or those of its first record if it was new |
| Persistence.SaveAllTranscripts | youtube/services/youtube.py:148-155 | transcript rows are only appended; afterwards a video has a transcript exactly when it had one or some record of it carried one |
| Persistence.SaveRecordKeepsTranscript | youtube/services/youtube.py:148-155 | an existing transcript is never overwritten or duplicated |
| Persistence.TranscriptsSettled | youtube/services/youtube.py:148-155 | when every video with a payload already has a transcript, the loop adds none |
| Persistence.SaveAllTwice | youtube/services/youtube.py:108-155 | saving the same records twice leaves the videos and transcripts as after once; only a second metrics row per record is added |
| Persistence.CreateAsWritten | youtube/services/youtube.py:124-130 | the Video `update_or_create` builds on first sighting has NULL `published_at` and `duration` |
| Persistence.CreateAsWrittenFails | youtube/services/youtube.py:124-136 | that insert raises IntegrityError on `published_at`, before the fields are set at 133-136 |
| Persistence.CreateIntendedInserts | youtube/services/youtube.py:133-136 | a create with every field of the record succeeds and writes the row the model's save loop creates |
| Channels.QueryFor | youtube/services/youtube.py:237-240 | a `forHandle` query exactly when the identifier starts with `@`, with the `@` removed; otherwise an `id` query with the identifier |
| Channels.ChannelDataFrom | youtube/services/youtube.py:241-253 | no `items` key raises KeyError; zero matches raise ValueError; otherwise the first match gives the dict exactly when both counts pass `int()`, with its id, title, description and counts |
| Channels.MissingCountsAreZero | youtube/services/youtube.py:251-252 | missing subscriber and video counts become 0 |
| Channels.CountsRoundTrip | youtube/services/youtube.py:251-252 | counts written by `str()` are read back as they were |
| Channels.UploadsPlaylist | youtube/services/youtube.py:166-172 | no `items` key raises KeyError, an empty list IndexError; otherwise the first match's uploads playlist |
| Channels.UpsertChannel | youtube/services/youtube.py:219-227 | the channel's row gets title, description and both counts, new or not; no other row of any table changes |
| Channels.UpsertChannelValid | youtube/services/youtube.py:219-230 | the upsert keeps the store valid and puts the channel in it before any video is saved |
| Service.RequestFor | youtube/services/youtube.py:181-189 | every request asks for the uploads playlist with page size 50; the first carries no token, each later one the previous reply's token |
| Service.PageRecords | youtube/services/youtube.py:77-105 | the merge of one page's items against the details and transcript oracles; `Service.OutcomeAt` and `Service.Store.ProcessPage` state what it gives |
| Service.OutcomeAt | youtube/services/youtube.py:195-200 | page k's outcome is `_process_video_batch`'s result for that page's items |
| Service.Truncated | youtube/services/youtube.py:209 | the result is a prefix of the videos; all of them when `max_results` is None or 0; `min(max_results, len)` of them for a positive limit |
| Service.Store.SaveVideo | youtube/services/youtube.py:109-155 | the store after one iteration of the save loop is `SaveRecord` of the store before; the store stays valid |
| Service.Store.SaveResults | youtube/services/youtube.py:108-159 | the store after the loop is `SaveAll` of the store before, and stays valid; the returned dicts are the records' static fields |
| Service.Store.ProcessVideoBatch | youtube/services/youtube.py:65-159 | the batch fails exactly when some item's merge raises, with that exception and nothing saved; otherwise every record is saved in order and their static fields are returned |
| Service.Store.ProcessPage | youtube/services/youtube.py:195-200 | the same for page k of the listing, stated against that page's outcome |
| Service.Store.GetChannelVideos | youtube/services/youtube.py:161-209 | a failing uploads lookup raises its exception and sends no request; otherwise the crawl of the uploads playlist as `Store.CrawlPlaylist` states it |
| Service.Store.CrawlPlaylist | youtube/services/youtube.py:174-209 | the requests chain the tokens; every page before the last was non-empty, merged and did not stop the loop; the last page was empty, raised, or stopped the loop (missing token or `max_results` reached); the store holds exactly the saves of the pages saved; the result is their static fields, truncated, or the exception |
| Service.Store.CrawlPage | youtube/services/youtube.py:181-206 | one pass of the page loop: it either ends the crawl, with the outcome `Store.CrawlPlaylist` states, or hands on the next token with every page so far saved; the store stays valid |
| Service.Store.SaveChannelWithVideos | youtube/services/youtube.py:211-232 | a failing channel lookup raises and changes nothing; otherwise the channel is upserted before the unlimited crawl of its uploads; the channel row is returned, or the crawl's exception raised; the store stays valid |
| Service.SavedPages | youtube/services/youtube.py:191-206 | the crawl saved every page before the last, and the last only when it was non-empty and merged |
| Service.CrawlSavesPages | youtube/services/youtube.py:179-209 | after a crawl, the store is the saves of the saved pages' records in page order; one metrics row per saved record is appended; a successful result is a prefix of what was saved, with at most `max_results` entries when that is positive |
| Service.CrawlPersistsRecords | youtube/services/youtube.py:195-209 | every record of every saved page is in the store under the crawled channel, even when truncation drops it from the result |
| Service.CrawlKeepsValid | youtube/services/youtube.py:161-209 | a crawl that starts from a valid store holding the channel leaves it valid, with the channels unchanged |
| Service.EveryFetchedItemSaved | youtube/services/youtube.py:195-209 | every item of every saved page is a video of the channel in the store afterwards |

## Left out

- Remote and library calls are oracles in `Service.Api`, and not modelled. These are HTTP through `aiohttp`, `googleapiclient` and `YouTubeTranscriptApi`.
- Concurrency is modelled as sequential, in-order iteration. This covers `asyncio.gather`, `run_in_executor` and `async_to_sync`. Which of several failing items raises first in time is not modelled (`Merge.Gather` takes the first in input order).
- The `print` logging is left out, and so is the message classification in `_fetch_transcript`'s `except` branch, which only chooses what to print.
- `processed_count` and `new_count` are left out; they only feed a `print`.
- Clock-set timestamps are left out: `created_at`, `updated_at` and `captured_at`. The metrics table's append order stands for `captured_at`.
- `VideoMetrics.__str__` is left out, because it prints a clock value.
- Duration.ParseDuration: the source returns `timedelta(...).total_seconds()`, a float. The model returns the exact integer. Float rounding of very large values and `timedelta`'s range limit are not modelled.
- Duration.ParseDuration: the result is an `int`, not a `nat`, because `int()` accepts a sign. Non-negativity holds only for text without `-` (`Duration.ParseDurationUnsigned`).
- Models.Insert: a NULL `description` is stored as `""`. Django keeps NULL in the `null=True` TextField (youtube/models.py:19); the model does not tell NULL and `""` apart. The save loop always supplies a description, so no path of the pipeline reaches this.
- Builtins.ParseInt: only ASCII digits are accepted. Python's `int()` also reads other Unicode decimal digits.
- Builtins.ParseInt: the limit of 4300 digits on string conversion (Python 3.11 and later) is not modelled; a longer numeral is read rather than rejected.
- The oracles in `Service.Api` never fail. In the source, an HttpError from `.execute()` (youtube/services/youtube.py:168-171, 181-189, 237-241) or an `aiohttp` or JSON error in the details request (youtube/services/youtube.py:24-25) aborts the crawl, with the pages before it already saved. The model has no such outcome.
- The datatypes of the replies rule out some KeyErrors the source can raise: a playlist item without `contentDetails.videoId`, `snippet.title` or `snippet.description` (youtube/services/youtube.py:74, 85, 93-94), and a channel without `statistics` (youtube/services/youtube.py:251-252). The optional keys the code reads with `.get` are modelled as optional.
- The counts are unbounded integers. The `IntegerField` columns (youtube/models.py:21-23, 32-33) are 32-bit in most databases, and a larger count would be rejected when saved; that is not modelled.
- Service.Store: every method requires the store invariant `Valid` and keeps it; the constructor establishes it. A database that breaks it is not modelled. One example is two transcript rows for one video, where the source's `get_or_create` raises MultipleObjectsReturned.

- Service.Store.GetChannelVideos: requires `ListingEnds`, that some page of the listing ends the loop. The source's `while True` has no ceiling on the number of pages, so a listing that never ends (an infinite token chain) would loop forever there; that case is not modelled.
- Service.Store.ProcessPage has no counterpart in the source. It is `_process_video_batch` applied to the k-th page.
- Service.Store.CrawlPage has no counterpart in the source. It is the body of the page loop of `_get_channel_videos_async`, written as a method of its own.
- The REST and wire layer, the ORM query helpers and the URL routing are not part of this model: `youtube/managers.py`, `youtube/api/`, `youtube/views.py`, `youtube/serializers.py`, `youtube/urls.py` and `config/urls.py`.
- Django's `update_or_create` and `get_or_create` are modelled as their effect on the tables. Their queries and transactions are left out.
- The store keys channels and videos by `youtube_id`. The `unique=True` constraints therefore hold by construction, and the internal surrogate ids of the rows are not modelled.

## Findings

| source | as written | input that shows it | evidently intended | confidence | as-written member | corrected member |
|---|---|---|---|---|---|---|
| youtube/services/youtube.py:124-136 | on first sighting `update_or_create` inserts the Video with only `youtube_id`, `channel` and the two counts, and sets the other fields afterwards | any record whose `youtube_id` is not yet stored: `published_at` and `duration` are NOT NULL without a default (youtube/models.py:20, 23), so the insert raises IntegrityError | the new row is inserted with all fields, title, description, `published_at` and `duration` included | not executed | Persistence.CreateAsWrittenFails | Persistence.CreateIntendedInserts |
