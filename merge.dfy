/** Building the records of one page (youtube/services/youtube.py:65-105):
    the detail entries are indexed by video id, each playlist item is merged
    with its detail entry (if any) and its transcript, and `asyncio.gather`
    collects the merged records in input order.  An exception raised for
    one item propagates out of the gather, so the whole page fails with the
    first failing item's exception (items are taken in input order; which
    of several failing items raises first in time is not modelled). */
module Merge {
  import opened Builtins
  import opened Models
  import opened Duration
  import opened Transcripts

  /** A playlistItems entry: `contentDetails.videoId`, `snippet.title`,
      `snippet.description` and `contentDetails.videoPublishedAt`, the one
      key the API leaves out (for private and deleted videos). */
  datatype PlaylistItem = PlaylistItem(videoId: string, title: string, description: string, videoPublishedAt: Option<string>)

  /** A videos.list entry: its id, the two statistics and the duration,
      each None when the response leaves the key out. */
  datatype DetailEntry = DetailEntry(id: string, viewCount: Option<string>, likeCount: Option<string>, duration: Option<string>)

  /** The dict `process_video` returns. */
  datatype VideoRecord = VideoRecord(
    youtubeId: string,
    statics: StaticFields,
    viewCount: int,
    likeCount: int,
    transcript: Option<TranscriptPayload>)

  /** `[item['contentDetails']['videoId'] for item in videos_batch]` */
  function VideoIds(items: seq<PlaylistItem>): (ids: seq<string>)
    ensures |ids| == |items| && forall i :: 0 <= i < |items| ==> ids[i] == items[i].videoId
  {
    if items == [] then [] else VideoIds(items[..|items| - 1]) + [items[|items| - 1].videoId]
  }

  /** `{v['id']: v for v in video_details}` */
  function DetailsMap(es: seq<DetailEntry>): (m: map<string, DetailEntry>)
    ensures forall i :: 0 <= i < |es| ==> es[i].id in m
  {
    if es == [] then map[] else DetailsMap(es[..|es| - 1])[es[|es| - 1].id := es[|es| - 1]]
  }

  /** Every key is the id of some entry, and maps to an entry with that id. */
  lemma {:induction false} DetailsMapKeys(es: seq<DetailEntry>, k: string)
    requires k in DetailsMap(es)
    ensures DetailsMap(es)[k].id == k
    ensures exists i :: 0 <= i < |es| && es[i] == DetailsMap(es)[k]
  {
    var e := es[|es| - 1];
    if k == e.id {
      assert es[|es| - 1] == DetailsMap(es)[k];
    } else {
      DetailsMapKeys(es[..|es| - 1], k);
      var i :| 0 <= i < |es| - 1 && es[..|es| - 1][i] == DetailsMap(es[..|es| - 1])[k];
      assert es[i] == DetailsMap(es)[k];
    }
  }

  /** When an id occurs several times, the last entry with it wins. */
  lemma {:induction false} DetailsMapLastWins(es: seq<DetailEntry>, i: nat)
    requires i < |es| && LastWithId(es, i)
    ensures DetailsMap(es)[es[i].id] == es[i]
  {
    if i < |es| - 1 {
      var init := es[..|es| - 1];
      assert init[i] == es[i];
      assert LastWithId(init, i);
      DetailsMapLastWins(init, i);
    }
  }

  /** No entry after position `i` carries the id of entry `i`. */
  predicate LastWithId(es: seq<DetailEntry>, i: nat)
    requires i < |es|
  {
    forall j :: i < j < |es| ==> es[j].id != es[i].id
  }

  function DetailFor(details: map<string, DetailEntry>, id: string): Option<DetailEntry> {
    if id in details then Some(details[id]) else None
  }

  function ViewCountOf(d: Option<DetailEntry>): Option<string> {
    if d.Some? then d.value.viewCount else None
  }

  function LikeCountOf(d: Option<DetailEntry>): Option<string> {
    if d.Some? then d.value.likeCount else None
  }

  /** `details.get('contentDetails', {}).get('duration', 'PT0S')` */
  function DurationOf(d: Option<DetailEntry>): string {
    if d.Some? && d.value.duration.Some? then d.value.duration.value else "PT0S"
  }

  /** `process_video(item)`: the dict entries are evaluated in the order
      written, so a missing `videoPublishedAt` raises first, then a bad view
      count, a bad like count and a bad duration. */
  function ProcessVideo(item: PlaylistItem, details: map<string, DetailEntry>, transcript: Option<TranscriptPayload>): (r: Result<VideoRecord>)
    ensures item.videoPublishedAt.None? ==> r == Err(KeyError("videoPublishedAt"))
    ensures r.Ok? <==> && item.videoPublishedAt.Some?
                       && CountField(ViewCountOf(DetailFor(details, item.videoId))).Ok?
                       && CountField(LikeCountOf(DetailFor(details, item.videoId))).Ok?
                       && ParseDuration(DurationOf(DetailFor(details, item.videoId))).Ok?
    ensures r.Ok? ==> && r.value.youtubeId == item.videoId
                      && r.value.statics.title == item.title
                      && r.value.statics.description == item.description
                      && r.value.statics.publishedAt == item.videoPublishedAt.value
                      && r.value.transcript == transcript
    ensures r.Ok? ==> && Ok(r.value.viewCount) == CountField(ViewCountOf(DetailFor(details, item.videoId)))
                      && Ok(r.value.likeCount) == CountField(LikeCountOf(DetailFor(details, item.videoId)))
                      && Ok(r.value.statics.duration) == ParseDuration(DurationOf(DetailFor(details, item.videoId)))
  {
    var d := DetailFor(details, item.videoId);
    if item.videoPublishedAt.None? then Err(KeyError("videoPublishedAt"))
    else
      match CountField(ViewCountOf(d))
      case Err(e) => Err(e)
      case Ok(views) =>
        match CountField(LikeCountOf(d))
        case Err(e) => Err(e)
        case Ok(likes) =>
          match ParseDuration(DurationOf(d))
          case Err(e) => Err(e)
          case Ok(seconds) =>
            Ok(VideoRecord(item.videoId, StaticFields(item.title, item.description, item.videoPublishedAt.value, seconds),
                           views, likes, transcript))
  }

  /** "PT0S", the duration used when the details leave it out, is 0. */
  lemma DefaultDurationIsZero()
    ensures ParseDuration("PT0S") == Ok(0)
  {
    assert Encode(None, None, Some("0")) == "PT0S";
    ParseEncoded(None, None, Some("0"));
    assert Amount(Some("0")) == 0;
    assert Seconds(Amount(None), Amount(None), Amount(Some("0"))) == 0;
  }

  /** An item the detail response says nothing about is kept, with both
      counts and the duration 0. */
  lemma MissingDetailsDefaults(item: PlaylistItem, details: map<string, DetailEntry>, transcript: Option<TranscriptPayload>)
    requires item.videoPublishedAt.Some? && item.videoId !in details
    ensures ProcessVideo(item, details, transcript).Ok?
    ensures ProcessVideo(item, details, transcript).value.viewCount == 0
    ensures ProcessVideo(item, details, transcript).value.likeCount == 0
    ensures ProcessVideo(item, details, transcript).value.statics.duration == 0
  {
    DefaultDurationIsZero();
  }

  /** `asyncio.gather` over awaitables that each returned a value or
      raised: the values in input order, or the exception of the first one
      that raised. */
  function Gather<T>(rs: seq<Result<T>>): (r: Result<seq<T>>)
    ensures r.Ok? <==> forall i :: 0 <= i < |rs| ==> rs[i].Ok?
    ensures r.Ok? ==> |r.value| == |rs| && forall i :: 0 <= i < |rs| ==> rs[i] == Ok(r.value[i])
  {
    if rs == [] then Ok([])
    else
      match rs[0]
      case Err(e) => Err(e)
      case Ok(first) =>
        assert forall i :: 1 <= i < |rs| ==> rs[1..][i - 1] == rs[i];
        match Gather(rs[1..])
        case Err(e) => Err(e)
        case Ok(rest) => Ok([first] + rest)
  }

  /** The gather fails exactly with the exception of its first failing
      awaitable. */
  lemma {:induction false} GatherFirstError<T>(rs: seq<Result<T>>, i: nat)
    requires i < |rs| && rs[i].Err?
    requires forall j :: 0 <= j < i ==> rs[j].Ok?
    ensures Gather(rs) == Err(rs[i].error)
  {
    if i > 0 {
      assert forall j :: 0 <= j < i - 1 ==> rs[1..][j] == rs[j + 1];
      GatherFirstError(rs[1..], i - 1);
    }
  }

  /** One item merged with its transcript. */
  function Merged(item: PlaylistItem, details: map<string, DetailEntry>, transcriptFor: string -> TranscriptApiReply): Result<VideoRecord> {
    ProcessVideo(item, details, FetchTranscript(transcriptFor(item.videoId)))
  }

  /** `[process_video(item) for item in items]`, each awaitable's outcome. */
  function MergeEach(items: seq<PlaylistItem>, details: map<string, DetailEntry>, transcriptFor: string -> TranscriptApiReply): (rs: seq<Result<VideoRecord>>)
    ensures |rs| == |items| && forall i :: 0 <= i < |items| ==> rs[i] == Merged(items[i], details, transcriptFor)
  {
    if items == [] then []
    else MergeEach(items[..|items| - 1], details, transcriptFor) + [Merged(items[|items| - 1], details, transcriptFor)]
  }

  /** The records of one page: the details indexed, every item merged, and
      the outcomes gathered. */
  function BatchRecords(items: seq<PlaylistItem>, entries: seq<DetailEntry>, transcriptFor: string -> TranscriptApiReply): Result<seq<VideoRecord>> {
    Gather(MergeEach(items, DetailsMap(entries), transcriptFor))
  }

  /** A successful page yields one record per item, in input order, each
      carrying its item's id. */
  lemma BatchInOrder(items: seq<PlaylistItem>, entries: seq<DetailEntry>, transcriptFor: string -> TranscriptApiReply)
    requires BatchRecords(items, entries, transcriptFor).Ok?
    ensures |BatchRecords(items, entries, transcriptFor).value| == |items|
    ensures forall i :: 0 <= i < |items| ==> BatchRecords(items, entries, transcriptFor).value[i].youtubeId == items[i].videoId
    ensures Ids(BatchRecords(items, entries, transcriptFor).value) == VideoIds(items)
  {
    var rs := BatchRecords(items, entries, transcriptFor).value;
    forall i | 0 <= i < |items| ensures rs[i].youtubeId == items[i].videoId {
      assert MergeEach(items, DetailsMap(entries), transcriptFor)[i] == Ok(rs[i]);
    }
  }

  /** The ids of a run of records, in order. */
  function Ids(rs: seq<VideoRecord>): (ids: seq<string>)
    ensures |ids| == |rs| && forall i :: 0 <= i < |rs| ==> ids[i] == rs[i].youtubeId
  {
    if rs == [] then [] else Ids(rs[..|rs| - 1]) + [rs[|rs| - 1].youtubeId]
  }

  /** The dicts `_process_video_batch` returns: after the pops in the save
      loop only title, description, published_at and duration are left. */
  function Statics(rs: seq<VideoRecord>): (ss: seq<StaticFields>)
    ensures |ss| == |rs| && forall i :: 0 <= i < |rs| ==> ss[i] == rs[i].statics
  {
    if rs == [] then [] else Statics(rs[..|rs| - 1]) + [rs[|rs| - 1].statics]
  }
}
