/** The record shapes of youtube/models.py and the key constraints of the
    store they live in.  Each table is keyed by its natural key where the
    schema makes that key unique (`youtube_id`), so uniqueness holds by
    construction; foreign keys name the referenced row by that key.
    Timestamps set by the clock are not modelled: the metrics table is an
    append-ordered sequence, and that order stands for `captured_at`. */
module Models {
  import opened Builtins

  datatype ChannelRow = ChannelRow(title: string, description: string, subscriberCount: int, videoCount: int)

  /** The fields of a video written only when its row is created. */
  datatype StaticFields = StaticFields(title: string, description: string, publishedAt: string, duration: int)

  /** A Video row; `channel` is the referenced channel's `youtube_id`. */
  datatype VideoRow = VideoRow(channel: string, statics: StaticFields, viewCount: int, likeCount: int)

  /** A VideoMetrics row; `video` is the referenced video's `youtube_id`. */
  datatype MetricsRow = MetricsRow(video: string, viewCount: int, likeCount: int)

  datatype TranscriptRow = TranscriptRow(video: string, content: string, language: string, isGenerated: bool)

  /** The four tables: channels and videos keyed by `youtube_id`, metrics
      and transcripts in insertion order. */
  datatype Tables = Tables(
    channels: map<string, ChannelRow>,
    videos: map<string, VideoRow>,
    metrics: seq<MetricsRow>,
    transcripts: seq<TranscriptRow>)

  const EmptyTables := Tables(map[], map[], [], [])

  predicate HasTranscript(ts: seq<TranscriptRow>, video: string) {
    exists i :: 0 <= i < |ts| && ts[i].video == video
  }

  /** Referential integrity of the store, plus at most one transcript per
      video, which every path that writes transcripts keeps. */
  ghost predicate Valid(t: Tables) {
    && (forall v :: v in t.videos ==> t.videos[v].channel in t.channels)
    && (forall i :: 0 <= i < |t.metrics| ==> t.metrics[i].video in t.videos)
    && (forall i :: 0 <= i < |t.transcripts| ==> t.transcripts[i].video in t.videos)
    && (forall i, j :: 0 <= i < j < |t.transcripts| ==> t.transcripts[i].video != t.transcripts[j].video)
  }

  /** A video's metrics history as `ordering = ['-captured_at']` lists it:
      newest row first. */
  function History(ms: seq<MetricsRow>, video: string): (h: seq<MetricsRow>)
    ensures |h| <= |ms|
    ensures forall i :: 0 <= i < |h| ==> h[i].video == video
  {
    if ms == [] then []
    else (if ms[|ms| - 1].video == video then [ms[|ms| - 1]] else []) + History(ms[..|ms| - 1], video)
  }

  /** Rows appended later come first in the history; older entries keep
      their relative order behind them. */
  lemma {:induction false} HistoryAppend(ms: seq<MetricsRow>, extra: seq<MetricsRow>, video: string)
    ensures History(ms + extra, video) == History(extra, video) + History(ms, video)
  {
    if extra != [] {
      var last := extra[|extra| - 1];
      var head := if last.video == video then [last] else [];
      assert (ms + extra)[..|ms + extra| - 1] == ms + extra[..|extra| - 1];
      HistoryAppend(ms, extra[..|extra| - 1], video);
      calc {
        History(ms + extra, video);
        head + History(ms + extra[..|extra| - 1], video);
        head + (History(extra[..|extra| - 1], video) + History(ms, video));
        (head + History(extra[..|extra| - 1], video)) + History(ms, video);
        History(extra, video) + History(ms, video);
      }
    } else {
      assert ms + extra == ms;
    }
  }

  // ---- __str__ ----

  /** The shape `f"{title} ({key})"` shared by all three renderings. */
  function Label(title: string, key: string): string {
    title + " (" + key + ")"
  }

  /** `Channel.__str__` */
  function ChannelLabel(youtubeId: string, c: ChannelRow): (s: string)
    ensures s == Label(c.title, youtubeId)
  {
    c.title + " (" + youtubeId + ")"
  }

  /** `Video.__str__` */
  function VideoLabel(youtubeId: string, v: VideoRow): (s: string)
    ensures s == Label(v.statics.title, youtubeId)
  {
    v.statics.title + " (" + youtubeId + ")"
  }

  /** `Transcript.__str__`; it reads the title of the referenced video. */
  function TranscriptLabel(t: Tables, tr: TranscriptRow): (s: string)
    requires tr.video in t.videos
    ensures s == "Transcript for " + Label(t.videos[tr.video].statics.title, tr.language)
  {
    "Transcript for " + t.videos[tr.video].statics.title + " (" + tr.language + ")"
  }

  /** The rendering loses nothing when the key holds no '(': title and key
      can be read back, so two rows with such keys that render alike have
      the same title and key. */
  lemma LabelInjective(t1: string, k1: string, t2: string, k2: string)
    requires '(' !in k1 && '(' !in k2
    requires Label(t1, k1) == Label(t2, k2)
    ensures t1 == t2 && k1 == k2
  {
    var s := Label(t1, k1);
    assert s == t1 + " (" + k1 + ")";
    assert s == t2 + " (" + k2 + ")";
    if |k1| < |k2| {
      OpenParenAt(t1, k1);
      assert false;
    } else if |k2| < |k1| {
      OpenParenAt(t2, k2);
      assert false;
    }
    assert t1 == s[..|t1|] == t2;
    assert k1 == s[|t1| + 2..|s| - 1] == k2;
  }

  lemma OpenParenAt(t: string, k: string)
    ensures Label(t, k)[|t| + 1] == '('
  {
    assert Label(t, k) == t + " (" + k + ")";
  }

  // ---- field defaults ----

  /** The keyword arguments given to `Video(...)`; None = not supplied. */
  datatype VideoArgs = VideoArgs(
    youtubeId: string,
    channel: Option<string>,
    title: Option<string>,
    description: Option<string>,
    publishedAt: Option<string>,
    viewCount: Option<int>,
    likeCount: Option<int>,
    duration: Option<int>)

  /** An unsaved Video instance; None is a NULL column. */
  datatype VideoInstance = VideoInstance(
    youtubeId: string,
    channel: Option<string>,
    title: string,
    description: Option<string>,
    publishedAt: Option<string>,
    viewCount: int,
    likeCount: int,
    duration: Option<int>)

  function OrElse<T>(o: Option<T>, default: T): T {
    if o.Some? then o.value else default
  }

  /** `Video(**kwargs)`: a field not supplied takes its declared default
      (0 for the counts), the empty string for a non-null CharField, and
      NULL for the fields that declare none. */
  function NewVideo(a: VideoArgs): (v: VideoInstance)
    ensures a.viewCount.None? ==> v.viewCount == 0
    ensures a.likeCount.None? ==> v.likeCount == 0
    ensures a.viewCount.Some? ==> v.viewCount == a.viewCount.value
    ensures a.likeCount.Some? ==> v.likeCount == a.likeCount.value
    ensures v.publishedAt == a.publishedAt && v.duration == a.duration && v.channel == a.channel
  {
    VideoInstance(a.youtubeId, a.channel, OrElse(a.title, ""), a.description, a.publishedAt,
                  OrElse(a.viewCount, 0), OrElse(a.likeCount, 0), a.duration)
  }

  /** An INSERT of the instance passes the NOT NULL constraints: the
      channel foreign key, `published_at` and `duration` have no default. */
  predicate Insertable(v: VideoInstance) {
    v.channel.Some? && v.publishedAt.Some? && v.duration.Some?
  }

  /** The first NOT NULL column the instance leaves NULL. */
  function MissingColumn(v: VideoInstance): string
    requires !Insertable(v)
  {
    if v.channel.None? then "channel_id" else if v.publishedAt.None? then "published_at" else "duration"
  }

  /** `save()` of a new instance: the row it becomes, or the IntegrityError
      the database raises for a NULL in a NOT NULL column. */
  function Insert(v: VideoInstance): (r: Result<VideoRow>)
    ensures r.Ok? <==> Insertable(v)
    ensures r.Err? ==> r.error.IntegrityError?
    ensures r.Ok? ==> && r.value.channel == v.channel.value
                      && r.value.statics == StaticFields(v.title, OrElse(v.description, ""), v.publishedAt.value, v.duration.value)
                      && r.value.viewCount == v.viewCount && r.value.likeCount == v.likeCount
  {
    if Insertable(v) then
      Ok(VideoRow(v.channel.value, StaticFields(v.title, OrElse(v.description, ""), v.publishedAt.value, v.duration.value),
                  v.viewCount, v.likeCount))
    else Err(IntegrityError(MissingColumn(v)))
  }

  /** `Transcript(...)` with `is_generated` possibly not supplied. */
  function NewTranscript(video: string, content: string, language: string, isGenerated: Option<bool>): (r: TranscriptRow)
    ensures isGenerated.None? ==> !r.isGenerated
    ensures isGenerated.Some? ==> r.isGenerated == isGenerated.value
    ensures r.video == video && r.content == content && r.language == language
  {
    TranscriptRow(video, content, language, OrElse(isGenerated, false))
  }
}
