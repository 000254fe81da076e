/** `YouTubeService`'s ingestion pipeline (youtube/services/youtube.py:65-232)
    over an in-memory store.  The store is an object whose four tables the
    operations update in place; the remote services are the oracles of an
    `Api` value:

    - `channelsList` answers channels.list with `part="snippet,statistics"`;
    - `uploadsFor` gives the uploads playlist ids channels.list with
      `part="contentDetails"` returns for a channel id (None: no 'items');
    - `pages[k]` is the reply to the k-th playlistItems.list request;
    - `detailsFor` answers a videos.list request for a list of ids;
    - `transcriptFor` is what the transcript library does for a video. */
module Service {
  import opened Builtins
  import opened Models
  import opened Transcripts
  import opened Merge
  import opened Persistence
  import opened Channels

  datatype PageReply = PageReply(items: seq<PlaylistItem>, nextPageToken: Option<string>)

  /** A playlistItems.list request: the playlist, `maxResults` and
      `pageToken` (None: no token passed). */
  datatype PageRequest = PageRequest(playlistId: string, maxResults: int, pageToken: Option<string>)

  /** The page size the service asks for. */
  const PageSize := 50

  datatype Api = Api(
    channelsList: ChannelQuery -> Option<seq<ChannelItem>>,
    uploadsFor: string -> Option<seq<string>>,
    pages: seq<PageReply>,
    detailsFor: seq<string> -> seq<DetailEntry>,
    transcriptFor: string -> TranscriptApiReply)

  /** `next_page_token` is truthy: present and not the empty string. */
  predicate TokenPresent(token: Option<string>) {
    token.Some? && token.value != ""
  }

  /** `max_results` is truthy: given and not 0. */
  predicate Limited(maxResults: Option<int>) {
    maxResults.Some? && maxResults.value != 0
  }

  /** A reply after which the loop asks for no further page. */
  predicate EndsListing(p: PageReply) {
    p.items == [] || !TokenPresent(p.nextPageToken)
  }

  /** The listing the oracle serves comes to an end: some reply is empty
      or carries no token. */
  predicate ListingEnds(pages: seq<PageReply>) {
    exists i :: 0 <= i < |pages| && EndsListing(pages[i])
  }

  /** The k-th request of a crawl of playlist `playlistId`: the first one
      carries no token, each later one the token of the reply before it. */
  function RequestFor(pages: seq<PageReply>, playlistId: string, k: nat): (q: PageRequest)
    requires k <= |pages|
    ensures q.playlistId == playlistId && q.maxResults == PageSize
    ensures k == 0 ==> q.pageToken.None?
    ensures k > 0 ==> q.pageToken == pages[k - 1].nextPageToken
  {
    PageRequest(playlistId, PageSize, if k == 0 then None else pages[k - 1].nextPageToken)
  }

  /** The records `_process_video_batch` builds for one page. */
  function PageRecords(api: Api, items: seq<PlaylistItem>): Result<seq<VideoRecord>> {
    BatchRecords(items, api.detailsFor(VideoIds(items)), api.transcriptFor)
  }

  /** What merging each page of the listing gives. */
  function Outcomes(api: Api): (os: seq<Result<seq<VideoRecord>>>)
    ensures |os| == |api.pages|
  {
    MergePages(api.pages, items => PageRecords(api, items), |api.pages|)
  }

  /** `merge` applied to the items of each of the first `n` pages. */
  function MergePages(pages: seq<PageReply>, merge: seq<PlaylistItem> -> Result<seq<VideoRecord>>, n: nat): (os: seq<Result<seq<VideoRecord>>>)
    requires n <= |pages|
    ensures |os| == n
  {
    if n == 0 then [] else MergePages(pages, merge, n - 1) + [merge(pages[n - 1].items)]
  }

  /** Entry k is what merging page k gives. */
  lemma {:induction false} MergedPage(pages: seq<PageReply>, merge: seq<PlaylistItem> -> Result<seq<VideoRecord>>, n: nat, k: nat)
    requires k < n <= |pages|
    ensures MergePages(pages, merge, n)[k] == merge(pages[k].items)
  {
    if k < n - 1 {
      MergedPage(pages, merge, n - 1, k);
    }
  }

  /** Page k's outcome is what `_process_video_batch` computes for it. */
  lemma OutcomeAt(api: Api, k: nat)
    requires k < |api.pages|
    ensures Outcomes(api)[k] == PageRecords(api, api.pages[k].items)
  {
    MergedPage(api.pages, items => PageRecords(api, items), |api.pages|, k);
  }

  /** Every one of the first `n` pages was merged without an exception. */
  predicate PagesOk(os: seq<Result<seq<VideoRecord>>>, n: nat)
    requires n <= |os|
  {
    forall k :: 0 <= k < n ==> os[k].Ok?
  }

  /** The records of the first `n` pages, in order. */
  function RecordsBefore(os: seq<Result<seq<VideoRecord>>>, n: nat): seq<VideoRecord>
    requires n <= |os|
  {
    if n == 0 then [] else RecordsBefore(os, n - 1) + (if os[n - 1].Ok? then os[n - 1].value else [])
  }

  /** After processing page k the loop asks for the next one: the page was
      not empty, had a token, and `max_results` was not reached. */
  predicate GoesOn(pages: seq<PageReply>, os: seq<Result<seq<VideoRecord>>>, maxResults: Option<int>, k: nat)
    requires k < |pages| == |os|
  {
    && !EndsListing(pages[k])
    && !(Limited(maxResults) && |RecordsBefore(os, k + 1)| >= maxResults.value)
  }

  /** `videos[:max_results] if max_results else videos` */
  function Truncated<T>(maxResults: Option<int>, vs: seq<T>): (r: seq<T>)
    ensures r <= vs
    ensures !Limited(maxResults) ==> r == vs
    ensures Limited(maxResults) && maxResults.value > 0 ==>
              |r| == if maxResults.value <= |vs| then maxResults.value else |vs|
  {
    if Limited(maxResults) then PyPrefix(vs, maxResults.value) else vs
  }

  /** What `_get_channel_videos_async` does, with `t0` the store before it,
      `t1` the store after it, `res` its result and `requests` the page
      requests it sent.  A failing uploads lookup sends nothing. */
  ghost predicate CrawlOutcome(api: Api, channelId: string, channel: string, maxResults: Option<int>,
                               t0: Tables, t1: Tables, res: Result<seq<StaticFields>>, requests: seq<PageRequest>)
  {
    match UploadsPlaylist(api.uploadsFor(channelId))
    case Err(e) => res == Err(e) && requests == [] && t1 == t0
    case Ok(playlistId) => Crawled(api.pages, Outcomes(api), playlistId, channel, maxResults, t0, t1, res, requests)
  }

  /** The page loop over playlist `playlistId`, page k merging to `os[k]`:
      the requests chain the tokens; every page before the last was
      non-empty, merged and did not stop the loop; and the last page either
      was empty, or raised (its records are then not saved), or stopped the
      loop after being saved.  The store holds the records of every page
      saved, and the result is their remaining fields, truncated. */
  ghost predicate Crawled(pages: seq<PageReply>, os: seq<Result<seq<VideoRecord>>>, playlistId: string, channel: string,
                          maxResults: Option<int>, t0: Tables, t1: Tables, res: Result<seq<StaticFields>>, requests: seq<PageRequest>)
    requires |os| == |pages|
  {
    && Chained(pages, os, playlistId, maxResults, requests)
    && LastPage(pages, os, channel, maxResults, t0, t1, res, |requests| - 1)
  }

  /** The requests chain the tokens, and every page but the last was
      non-empty, merged and did not stop the loop. */
  predicate Chained(pages: seq<PageReply>, os: seq<Result<seq<VideoRecord>>>, playlistId: string,
                    maxResults: Option<int>, requests: seq<PageRequest>)
    requires |os| == |pages|
  {
    && 1 <= |requests| <= |pages|
    && (forall k :: 0 <= k < |requests| ==> requests[k] == RequestFor(pages, playlistId, k))
    && PagesOk(os, |requests| - 1)
    && (forall k :: 0 <= k < |requests| - 1 ==> GoesOn(pages, os, maxResults, k))
  }

  /** How the crawl ends at page `last`. */
  predicate LastPage(pages: seq<PageReply>, os: seq<Result<seq<VideoRecord>>>, channel: string,
                     maxResults: Option<int>, t0: Tables, t1: Tables, res: Result<seq<StaticFields>>, last: nat)
    requires last < |pages| == |os|
  {
    if pages[last].items == [] then
      && t1 == SaveAll(t0, channel, RecordsBefore(os, last))
      && res == Ok(Truncated(maxResults, Statics(RecordsBefore(os, last))))
    else if os[last].Err? then
      && t1 == SaveAll(t0, channel, RecordsBefore(os, last))
      && res == Err(os[last].error)
    else
      && !GoesOn(pages, os, maxResults, last)
      && t1 == SaveAll(t0, channel, RecordsBefore(os, last + 1))
      && res == Ok(Truncated(maxResults, Statics(RecordsBefore(os, last + 1))))
  }

  /** The database: the four tables of youtube/models.py. */
  class Store {
    var channels: map<string, ChannelRow>
    var videos: map<string, VideoRow>
    var metrics: seq<MetricsRow>
    var transcripts: seq<TranscriptRow>

    function Snapshot(): Tables
      reads this
    {
      Tables(channels, videos, metrics, transcripts)
    }

    constructor ()
      ensures Snapshot() == EmptyTables && Valid(Snapshot())
    {
      channels, videos, metrics, transcripts := map[], map[], [], [];
    }

    /** One `update_or_create` of a video, its metrics row and the
        transcript get-or-create. */
    method SaveVideo(channel: string, r: VideoRecord)
      requires Valid(Snapshot()) && channel in channels
      modifies this
      ensures Snapshot() == SaveRecord(old(Snapshot()), channel, r)
      ensures Valid(Snapshot()) && channels == old(channels)
    {
      SaveRecordValid(Snapshot(), channel, r);
      var id := r.youtubeId;
      if id in videos {
        videos := videos[id := UpdatedRow(videos[id], channel, r)];
      } else {
        videos := videos[id := CreatedRow(channel, r)];
      }
      metrics := metrics + [MetricsFor(r)];
      if r.transcript.Some? && !HasTranscript(transcripts, id) {
        transcripts := transcripts + [TranscriptFrom(id, r.transcript.value)];
      }
    }

    /** `for video_data in results: ...`: saves the records in order, and
        hands back what the pops leave of each record. */
    method SaveResults(channel: string, rs: seq<VideoRecord>) returns (remaining: seq<StaticFields>)
      requires Valid(Snapshot()) && channel in channels
      modifies this
      ensures Snapshot() == SaveAll(old(Snapshot()), channel, rs)
      ensures remaining == Statics(rs)
      ensures Valid(Snapshot()) && channels == old(channels)
    {
      remaining := [];
      for i := 0 to |rs|
        invariant Snapshot() == SaveAll(old(Snapshot()), channel, rs[..i])
        invariant remaining == Statics(rs[..i])
        invariant Valid(Snapshot()) && channels == old(channels)
      {
        SaveVideo(channel, rs[i]);
        assert rs[..i + 1][..i] == rs[..i];
        remaining := remaining + [rs[i].statics];
      }
      assert rs[..|rs|] == rs;
    }

    /** `_process_video_batch`: fetch the details of the page's videos,
        merge every item, and only if all of them merged save them. */
    method ProcessVideoBatch(api: Api, items: seq<PlaylistItem>, channel: string) returns (res: Result<seq<StaticFields>>)
      requires Valid(Snapshot()) && channel in channels
      modifies this
      ensures Valid(Snapshot()) && channels == old(channels)
      ensures res.Err? <==> PageRecords(api, items).Err?
      ensures res.Err? ==> res.error == PageRecords(api, items).error && Snapshot() == old(Snapshot())
      ensures res.Ok? ==> && Snapshot() == SaveAll(old(Snapshot()), channel, PageRecords(api, items).value)
                          && res.value == Statics(PageRecords(api, items).value)
    {
      var entries := api.detailsFor(VideoIds(items));
      var records := BatchRecords(items, entries, api.transcriptFor);
      if records.Err? {
        return Err(records.error);
      }
      var remaining := SaveResults(channel, records.value);
      res := Ok(remaining);
    }

    /** `_process_video_batch` on page k of the listing, stated against
        that page's outcome. */
    method ProcessPage(api: Api, k: nat, channel: string) returns (res: Result<seq<StaticFields>>)
      requires k < |api.pages| && Valid(Snapshot()) && channel in channels
      modifies this
      ensures Valid(Snapshot()) && channels == old(channels)
      ensures res.Err? <==> Outcomes(api)[k].Err?
      ensures res.Err? ==> res.error == Outcomes(api)[k].error && Snapshot() == old(Snapshot())
      ensures res.Ok? ==> && Snapshot() == SaveAll(old(Snapshot()), channel, Outcomes(api)[k].value)
                          && res.value == Statics(Outcomes(api)[k].value)
    {
      res := ProcessVideoBatch(api, api.pages[k].items, channel);
      OutcomeAt(api, k);
    }

    /** `_get_channel_videos_async`: look up the uploads playlist, then ask
        for pages until one is empty, one has no token, or `max_results`
        videos are collected; every page is saved as soon as it is merged. */
    method GetChannelVideos(api: Api, channelId: string, channel: string, maxResults: Option<int>)
      returns (res: Result<seq<StaticFields>>, requests: seq<PageRequest>)
      requires ListingEnds(api.pages) && Valid(Snapshot()) && channel in channels
      modifies this
      ensures Valid(Snapshot())
      ensures CrawlOutcome(api, channelId, channel, maxResults, old(Snapshot()), Snapshot(), res, requests)
    {
      var uploads := UploadsPlaylist(api.uploadsFor(channelId));
      if uploads.Err? {
        return Err(uploads.error), [];
      }
      res, requests := CrawlPlaylist(api, uploads.value, channel, maxResults);
    }

    /** The page loop of `_get_channel_videos_async` over the uploads
        playlist `playlistId`. */
    method CrawlPlaylist(api: Api, playlistId: string, channel: string, maxResults: Option<int>)
      returns (res: Result<seq<StaticFields>>, requests: seq<PageRequest>)
      requires ListingEnds(api.pages) && Valid(Snapshot()) && channel in channels
      modifies this
      ensures Valid(Snapshot())
      ensures Crawled(api.pages, Outcomes(api), playlistId, channel, maxResults, old(Snapshot()), Snapshot(), res, requests)
    {
      requests := [];
      ghost var t0 := Snapshot();
      ghost var os := Outcomes(api);
      ghost var end :| 0 <= end < |api.pages| && EndsListing(api.pages[end]);
      var collected: seq<StaticFields> := [];
      var token: Option<string> := None;
      var k := 0;
      while true
        invariant 0 <= k <= end
        invariant Looping(api.pages, os, playlistId, channel, maxResults, t0, Snapshot(), requests, token, collected, k)
        invariant Valid(Snapshot()) && channel in channels
        decreases end - k
      {
        ghost var sent := requests;
        requests := requests + [PageRequest(playlistId, PageSize, token)];
        var stop;
        stop, res, token, collected := CrawlPage(api, playlistId, channel, maxResults, k, token, collected, os, t0, sent, end);
        if stop {
          return;
        }
        k := k + 1;
      }
    }

    /** One pass of the page loop: ask for page k with `token`, then stop
        on an empty page, a page whose merge raised, a page without a next
        token or once `max_results` records are collected; otherwise hand on
        the next token and what was collected. */
    method CrawlPage(api: Api, playlistId: string, channel: string, maxResults: Option<int>, k: nat,
                     token: Option<string>, collected: seq<StaticFields>,
                     ghost os: seq<Result<seq<VideoRecord>>>, ghost t0: Tables, ghost sent: seq<PageRequest>, ghost end: nat)
      returns (stop: bool, res: Result<seq<StaticFields>>, next: Option<string>, gathered: seq<StaticFields>)
      requires os == Outcomes(api) && k <= end < |api.pages| && EndsListing(api.pages[end])
      requires Looping(api.pages, os, playlistId, channel, maxResults, t0, Snapshot(), sent, token, collected, k)
      requires Valid(Snapshot()) && channel in channels
      modifies this
      ensures Valid(Snapshot()) && channel in channels
      ensures stop ==> Crawled(api.pages, os, playlistId, channel, maxResults, t0, Snapshot(), res,
                               sent + [PageRequest(playlistId, PageSize, token)])
      ensures !stop ==> && k < end
                        && Looping(api.pages, os, playlistId, channel, maxResults, t0, Snapshot(),
                                   sent + [PageRequest(playlistId, PageSize, token)], next, gathered, k + 1)
    {
      var reply := api.pages[k];
      ghost var tk := Snapshot();
      if reply.items == [] {
        ExitOnEmptyPage(api.pages, os, playlistId, channel, maxResults, t0, tk, sent, token, collected, k);
        return true, Ok(Truncated(maxResults, collected)), token, collected;
      }
      var batch := ProcessPage(api, k, channel);
      if batch.Err? {
        ExitOnFailure(api.pages, os, playlistId, channel, maxResults, t0, tk, sent, token, collected, k);
        return true, batch, token, collected;
      }
      gathered := collected + batch.value;
      next := reply.nextPageToken;
      if !TokenPresent(next) || (Limited(maxResults) && |gathered| >= maxResults.value) {
        ExitOnStop(api.pages, os, playlistId, channel, maxResults, t0, tk, Snapshot(), sent, token, collected, batch.value, k);
        return true, Ok(Truncated(maxResults, gathered)), next, gathered;
      }
      assert k != end;
      NextPage(api.pages, os, playlistId, channel, maxResults, t0, tk, Snapshot(), sent, token, collected, batch.value, k);
      stop, res := false, Ok(gathered);
    }

    /** `save_channel_with_videos`: the channel is looked up and upserted
        first, then its videos are crawled with no limit.  An exception
        from the crawl propagates; what was saved before it stays. */
    method SaveChannelWithVideos(api: Api, identifier: string)
      returns (res: Result<ChannelRow>, requests: seq<PageRequest>)
      requires ListingEnds(api.pages) && Valid(Snapshot())
      modifies this
      ensures Valid(Snapshot())
      ensures ChannelDataFrom(identifier, api.channelsList(QueryFor(identifier))).Err? ==>
                && res == Err(ChannelDataFrom(identifier, api.channelsList(QueryFor(identifier))).error)
                && requests == [] && Snapshot() == old(Snapshot())
      ensures ChannelDataFrom(identifier, api.channelsList(QueryFor(identifier))).Ok? ==>
                var data := ChannelDataFrom(identifier, api.channelsList(QueryFor(identifier))).value;
                exists crawl :: && CrawlOutcome(api, data.youtubeId, data.youtubeId, None,
                                                UpsertChannel(old(Snapshot()), data), Snapshot(), crawl, requests)
                                && (res.Ok? <==> crawl.Ok?)
                                && (res.Ok? ==> res.value == RowFor(data))
                                && (res.Err? ==> res.error == crawl.error)
    {
      var found := ChannelDataFrom(identifier, api.channelsList(QueryFor(identifier)));
      if found.Err? {
        return Err(found.error), [];
      }
      var data := found.value;
      UpsertChannelValid(Snapshot(), data);
      channels := channels[data.youtubeId := RowFor(data)];
      var crawl;
      crawl, requests := GetChannelVideos(api, data.youtubeId, data.youtubeId, None);
      if crawl.Err? {
        res := Err(crawl.error);
      } else {
        res := Ok(RowFor(data));
      }
    }
  }

  /** The state of the page loop before page k is asked for: k requests
      sent, chaining the tokens, and `token` the one to send next; the k
      pages before merged and saved, none of them ending the loop; and
      `collected` what those pages left. */
  ghost predicate Looping(pages: seq<PageReply>, os: seq<Result<seq<VideoRecord>>>, playlistId: string, channel: string,
                          maxResults: Option<int>, t0: Tables, t: Tables, requests: seq<PageRequest>,
                          token: Option<string>, collected: seq<StaticFields>, k: nat)
  {
    && |os| == |pages| && k < |pages|
    && Asked(pages, playlistId, requests, token, k)
    && Progressed(pages, os, maxResults, k)
    && t == SaveAll(t0, channel, RecordsBefore(os, k))
    && collected == Statics(RecordsBefore(os, k))
  }

  /** The first k requests chain the tokens and `token` is the next one. */
  predicate Asked(pages: seq<PageReply>, playlistId: string, requests: seq<PageRequest>, token: Option<string>, k: nat)
    requires k < |pages|
  {
    && |requests| == k
    && (forall j :: 0 <= j < k ==> requests[j] == RequestFor(pages, playlistId, j))
    && token == RequestFor(pages, playlistId, k).pageToken
  }

  /** The first k pages merged and none of them ended the loop. */
  predicate Progressed(pages: seq<PageReply>, os: seq<Result<seq<VideoRecord>>>, maxResults: Option<int>, k: nat)
    requires k <= |pages| == |os|
  {
    PagesOk(os, k) && forall j :: 0 <= j < k ==> GoesOn(pages, os, maxResults, j)
  }

  /** Sending the request for page k completes the chain of a crawl whose
      last page is k. */
  lemma AskedLast(pages: seq<PageReply>, os: seq<Result<seq<VideoRecord>>>, playlistId: string, maxResults: Option<int>,
                  requests: seq<PageRequest>, token: Option<string>, k: nat)
    requires k < |pages| == |os|
    requires Asked(pages, playlistId, requests, token, k) && Progressed(pages, os, maxResults, k)
    ensures Chained(pages, os, playlistId, maxResults, requests + [PageRequest(playlistId, PageSize, token)])
  {
    var rs := requests + [PageRequest(playlistId, PageSize, token)];
    assert forall j :: 0 <= j < k ==> rs[j] == requests[j];
  }

  /** Sending the request for page k, whose token is present, leaves the
      token of page k for the next one. */
  lemma AskedNext(pages: seq<PageReply>, playlistId: string, requests: seq<PageRequest>, token: Option<string>, k: nat)
    requires k + 1 < |pages| && Asked(pages, playlistId, requests, token, k)
    ensures Asked(pages, playlistId, requests + [PageRequest(playlistId, PageSize, token)], pages[k].nextPageToken, k + 1)
  {
    var rs := requests + [PageRequest(playlistId, PageSize, token)];
    assert forall j :: 0 <= j < k ==> rs[j] == requests[j];
  }

  /** A chained crawl whose last page ended it as `LastPage` says is a
      crawl. */
  lemma Concluded(pages: seq<PageReply>, os: seq<Result<seq<VideoRecord>>>, playlistId: string, channel: string,
                  maxResults: Option<int>, t0: Tables, t1: Tables, res: Result<seq<StaticFields>>, requests: seq<PageRequest>, k: nat)
    requires k < |pages| == |os| && |requests| == k + 1
    requires Chained(pages, os, playlistId, maxResults, requests)
    requires LastPage(pages, os, channel, maxResults, t0, t1, res, k)
    ensures Crawled(pages, os, playlistId, channel, maxResults, t0, t1, res, requests)
  {
  }

  /** The loop leaves on an empty page: page k is asked for and nothing
      more is saved. */
  lemma ExitOnEmptyPage(pages: seq<PageReply>, os: seq<Result<seq<VideoRecord>>>, playlistId: string, channel: string,
                        maxResults: Option<int>, t0: Tables, t: Tables, requests: seq<PageRequest>,
                        token: Option<string>, collected: seq<StaticFields>, k: nat)
    requires Looping(pages, os, playlistId, channel, maxResults, t0, t, requests, token, collected, k)
    requires pages[k].items == []
    ensures Crawled(pages, os, playlistId, channel, maxResults, t0, t,
                    Ok(Truncated(maxResults, collected)), requests + [PageRequest(playlistId, PageSize, token)])
  {
    AskedLast(pages, os, playlistId, maxResults, requests, token, k);
    assert LastPage(pages, os, channel, maxResults, t0, t, Ok(Truncated(maxResults, collected)), k);
    Concluded(pages, os, playlistId, channel, maxResults, t0, t, Ok(Truncated(maxResults, collected)),
              requests + [PageRequest(playlistId, PageSize, token)], k);
  }

  /** The loop leaves through the exception page k's merge raised: no
      record of that page is saved. */
  lemma ExitOnFailure(pages: seq<PageReply>, os: seq<Result<seq<VideoRecord>>>, playlistId: string, channel: string,
                      maxResults: Option<int>, t0: Tables, t: Tables, requests: seq<PageRequest>,
                      token: Option<string>, collected: seq<StaticFields>, k: nat)
    requires Looping(pages, os, playlistId, channel, maxResults, t0, t, requests, token, collected, k)
    requires pages[k].items != [] && os[k].Err?
    ensures Crawled(pages, os, playlistId, channel, maxResults, t0, t,
                    Err(os[k].error), requests + [PageRequest(playlistId, PageSize, token)])
  {
    AskedLast(pages, os, playlistId, maxResults, requests, token, k);
    assert LastPage(pages, os, channel, maxResults, t0, t, Err(os[k].error), k);
    Concluded(pages, os, playlistId, channel, maxResults, t0, t, Err(os[k].error),
              requests + [PageRequest(playlistId, PageSize, token)], k);
  }

  /** Saving page k on top of the pages before it. */
  lemma SavedPage(os: seq<Result<seq<VideoRecord>>>, channel: string, t0: Tables, k: nat)
    requires k < |os| && PagesOk(os, k) && os[k].Ok?
    ensures PagesOk(os, k + 1)
    ensures RecordsBefore(os, k + 1) == RecordsBefore(os, k) + os[k].value
    ensures SaveAll(t0, channel, RecordsBefore(os, k + 1)) == SaveAll(SaveAll(t0, channel, RecordsBefore(os, k)), channel, os[k].value)
    ensures Statics(RecordsBefore(os, k + 1)) == Statics(RecordsBefore(os, k)) + Statics(os[k].value)
  {
    SaveAllAppend(t0, channel, RecordsBefore(os, k), os[k].value);
    StaticsAppend(RecordsBefore(os, k), os[k].value);
  }

  /** The loop leaves after saving page k: it had no token or `max_results`
      was reached. */
  lemma ExitOnStop(pages: seq<PageReply>, os: seq<Result<seq<VideoRecord>>>, playlistId: string, channel: string,
                   maxResults: Option<int>, t0: Tables, tk: Tables, t: Tables, requests: seq<PageRequest>,
                   token: Option<string>, collected: seq<StaticFields>, batch: seq<StaticFields>, k: nat)
    requires Looping(pages, os, playlistId, channel, maxResults, t0, tk, requests, token, collected, k)
    requires pages[k].items != [] && os[k].Ok?
    requires t == SaveAll(tk, channel, os[k].value) && batch == Statics(os[k].value)
    requires || !TokenPresent(pages[k].nextPageToken)
             || (Limited(maxResults) && |collected + batch| >= maxResults.value)
    ensures Crawled(pages, os, playlistId, channel, maxResults, t0, t, Ok(Truncated(maxResults, collected + batch)),
                    requests + [PageRequest(playlistId, PageSize, token)])
  {
    AskedLast(pages, os, playlistId, maxResults, requests, token, k);
    SavedPage(os, channel, t0, k);
    assert collected + batch == Statics(RecordsBefore(os, k + 1));
    assert !GoesOn(pages, os, maxResults, k);
    assert LastPage(pages, os, channel, maxResults, t0, t, Ok(Truncated(maxResults, collected + batch)), k);
    Concluded(pages, os, playlistId, channel, maxResults, t0, t, Ok(Truncated(maxResults, collected + batch)),
              requests + [PageRequest(playlistId, PageSize, token)], k);
  }

  /** Page k saved and the loop goes on: the state before page k + 1. */
  lemma NextPage(pages: seq<PageReply>, os: seq<Result<seq<VideoRecord>>>, playlistId: string, channel: string,
                 maxResults: Option<int>, t0: Tables, tk: Tables, t: Tables, requests: seq<PageRequest>,
                 token: Option<string>, collected: seq<StaticFields>, batch: seq<StaticFields>, k: nat)
    requires Looping(pages, os, playlistId, channel, maxResults, t0, tk, requests, token, collected, k)
    requires pages[k].items != [] && os[k].Ok?
    requires t == SaveAll(tk, channel, os[k].value) && batch == Statics(os[k].value)
    requires TokenPresent(pages[k].nextPageToken)
    requires !(Limited(maxResults) && |collected + batch| >= maxResults.value)
    requires k + 1 < |pages|
    ensures Looping(pages, os, playlistId, channel, maxResults, t0, t,
                    requests + [PageRequest(playlistId, PageSize, token)],
                    pages[k].nextPageToken, collected + batch, k + 1)
  {
    AskedNext(pages, playlistId, requests, token, k);
    SavedPage(os, channel, t0, k);
    assert collected + batch == Statics(RecordsBefore(os, k + 1));
    assert GoesOn(pages, os, maxResults, k);
    assert Progressed(pages, os, maxResults, k + 1);
    assert t == SaveAll(t0, channel, RecordsBefore(os, k + 1));
  }

  // ---- what a crawl leaves behind ----

  /** How many pages a crawl ending at page `last` saved: an empty last
      page and a last page that raised save nothing. */
  function SavedPages(pages: seq<PageReply>, os: seq<Result<seq<VideoRecord>>>, last: nat): (n: nat)
    requires last < |pages| == |os|
    ensures n == last || (n == last + 1 && os[last].Ok?)
  {
    if pages[last].items == [] || os[last].Err? then last else last + 1
  }

  /** The store after a crawl holds the records of the saved pages, in
      page order, one metrics row per record; a successful crawl returns a
      prefix of what it saved, at most `max_results` of them when that is
      positive. */
  lemma CrawlSavesPages(pages: seq<PageReply>, os: seq<Result<seq<VideoRecord>>>, playlistId: string, channel: string,
                        maxResults: Option<int>, t0: Tables, t1: Tables, res: Result<seq<StaticFields>>, requests: seq<PageRequest>)
    requires |os| == |pages| && Crawled(pages, os, playlistId, channel, maxResults, t0, t1, res, requests)
    ensures PagesOk(os, SavedPages(pages, os, |requests| - 1))
    ensures t1 == SaveAll(t0, channel, RecordsBefore(os, SavedPages(pages, os, |requests| - 1)))
    ensures t1.metrics == t0.metrics + MetricsOf(RecordsBefore(os, SavedPages(pages, os, |requests| - 1)))
    ensures res.Ok? ==> res.value <= Statics(RecordsBefore(os, SavedPages(pages, os, |requests| - 1)))
    ensures res.Ok? && Limited(maxResults) && maxResults.value > 0 ==> |res.value| <= maxResults.value
  {
    var last := |requests| - 1;
    var n := SavedPages(pages, os, last);
    if n == last + 1 {
      assert PagesOk(os, n) by {
        forall j | 0 <= j < n ensures os[j].Ok? {
          if j < last {
            assert PagesOk(os, last);
          }
        }
      }
    }
    SaveAllMetrics(t0, channel, RecordsBefore(os, n));
  }

  /** A crawl for a channel in a valid store leaves the store valid and
      the channels as they were. */
  lemma CrawlKeepsValid(api: Api, channelId: string, channel: string, maxResults: Option<int>,
                        t0: Tables, t1: Tables, res: Result<seq<StaticFields>>, requests: seq<PageRequest>)
    requires CrawlOutcome(api, channelId, channel, maxResults, t0, t1, res, requests)
    requires Valid(t0) && channel in t0.channels
    ensures Valid(t1) && t1.channels == t0.channels
  {
    var uploads := UploadsPlaylist(api.uploadsFor(channelId));
    if uploads.Ok? {
      var os := Outcomes(api);
      CrawlSavesPages(api.pages, os, uploads.value, channel, maxResults, t0, t1, res, requests);
      SaveAllValid(t0, channel, RecordsBefore(os, SavedPages(api.pages, os, |requests| - 1)));
    }
  }

  /** Every record of a page up to `n` is among the records before `n`. */
  lemma {:induction false} RecordsBeforeHas(os: seq<Result<seq<VideoRecord>>>, n: nat, k: nat, i: nat)
    requires k < n <= |os| && os[k].Ok? && i < |os[k].value|
    ensures os[k].value[i] in RecordsBefore(os, n)
  {
    if k < n - 1 {
      RecordsBeforeHas(os, n - 1, k, i);
    }
  }

  /** Every record of every saved page is in the store, under the crawled
      channel, even when the result is truncated before it. */
  lemma CrawlPersistsRecords(pages: seq<PageReply>, os: seq<Result<seq<VideoRecord>>>, playlistId: string, channel: string,
                             maxResults: Option<int>, t0: Tables, t1: Tables, res: Result<seq<StaticFields>>,
                             requests: seq<PageRequest>, k: nat, i: nat)
    requires |os| == |pages| && Crawled(pages, os, playlistId, channel, maxResults, t0, t1, res, requests)
    requires k < SavedPages(pages, os, |requests| - 1) && os[k].Ok? && i < |os[k].value|
    ensures os[k].value[i].youtubeId in t1.videos
    ensures t1.videos[os[k].value[i].youtubeId].channel == channel
  {
    var rs := RecordsBefore(os, SavedPages(pages, os, |requests| - 1));
    var r := os[k].value[i];
    CrawlSavesPages(pages, os, playlistId, channel, maxResults, t0, t1, res, requests);
    RecordsBeforeHas(os, SavedPages(pages, os, |requests| - 1), k, i);
    var j :| 0 <= j < |rs| && rs[j] == r;
    assert Ids(rs)[j] == r.youtubeId;
    SaveAllVideo(t0, channel, rs, r.youtubeId);
  }

  /** In terms of the listing: every item of every page the crawl saved is
      a video of the channel in the store afterwards. */
  lemma EveryFetchedItemSaved(api: Api, channelId: string, channel: string, maxResults: Option<int>,
                              t0: Tables, t1: Tables, res: Result<seq<StaticFields>>, requests: seq<PageRequest>, k: nat, i: nat)
    requires CrawlOutcome(api, channelId, channel, maxResults, t0, t1, res, requests)
    requires UploadsPlaylist(api.uploadsFor(channelId)).Ok?
    requires 1 <= |requests| <= |api.pages| && k < SavedPages(api.pages, Outcomes(api), |requests| - 1)
    requires i < |api.pages[k].items|
    ensures api.pages[k].items[i].videoId in t1.videos
    ensures t1.videos[api.pages[k].items[i].videoId].channel == channel
  {
    var os := Outcomes(api);
    var items := api.pages[k].items;
    CrawlSavesPages(api.pages, os, UploadsPlaylist(api.uploadsFor(channelId)).value, channel, maxResults, t0, t1, res, requests);
    assert PagesOk(os, SavedPages(api.pages, os, |requests| - 1));
    OutcomeAt(api, k);
    BatchInOrder(items, api.detailsFor(VideoIds(items)), api.transcriptFor);
    CrawlPersistsRecords(api.pages, os, UploadsPlaylist(api.uploadsFor(channelId)).value, channel, maxResults, t0, t1, res, requests, k, i);
  }

  /** The remaining fields of two runs of records, one after the other. */
  lemma {:induction false} StaticsAppend(a: seq<VideoRecord>, b: seq<VideoRecord>)
    ensures Statics(a + b) == Statics(a) + Statics(b)
  {
    if b != [] {
      assert (a + b)[..|a + b| - 1] == a + b[..|b| - 1];
      StaticsAppend(a, b[..|b| - 1]);
    } else {
      assert a + b == a;
    }
  }
}
