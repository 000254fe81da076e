/** What the save loop of `_process_video_batch`
    (youtube/services/youtube.py:107-155) does to the store, record by
    record, as functions on `Tables`:

    - the Video row is upserted by `youtube_id`: channel and both counts are
      written every time, the static fields only when the row is created;
    - one VideoMetrics row with the counts just written is appended;
    - a Transcript row is added only when the record carries one and the
      video has none yet (get-or-create, never an overwrite).

    The methods of `Service.Store` are proved against these functions. */
module Persistence {
  import opened Builtins
  import opened Models
  import opened Transcripts
  import opened Merge

  /** The row the create path means to write: every field of the record. */
  function CreatedRow(channel: string, r: VideoRecord): VideoRow {
    VideoRow(channel, r.statics, r.viewCount, r.likeCount)
  }

  /** `update_or_create` on an existing row: the defaults are written over
      it, nothing else changes. */
  function UpdatedRow(row: VideoRow, channel: string, r: VideoRecord): VideoRow {
    row.(channel := channel, viewCount := r.viewCount, likeCount := r.likeCount)
  }

  function TranscriptFrom(video: string, p: TranscriptPayload): TranscriptRow {
    NewTranscript(video, p.content, p.language, Some(p.isGenerated))
  }

  function MetricsFor(r: VideoRecord): MetricsRow {
    MetricsRow(r.youtubeId, r.viewCount, r.likeCount)
  }

  /** One iteration of the save loop, for a video of channel `channel`. */
  function SaveRecord(t: Tables, channel: string, r: VideoRecord): Tables
  {
    var id := r.youtubeId;
    var row := if id in t.videos then UpdatedRow(t.videos[id], channel, r) else CreatedRow(channel, r);
    var ts := if r.transcript.Some? && !HasTranscript(t.transcripts, id)
              then t.transcripts + [TranscriptFrom(id, r.transcript.value)]
              else t.transcripts;
    Tables(t.channels, t.videos[id := row], t.metrics + [MetricsFor(r)], ts)
  }

  /** What one iteration of the save loop does: the channels are left
      alone; the video's row is created or updated, with the channel and
      both counts written and the static fields written only on creation;
      every other video is untouched; one metrics row with the counts just
      written is appended; and a transcript row is appended exactly when the
      record carries one and the video has none, the existing rows kept. */
  lemma SaveRecordEffect(t: Tables, channel: string, r: VideoRecord)
    ensures var u := SaveRecord(t, channel, r);
            && u.channels == t.channels
            && u.videos.Keys == t.videos.Keys + {r.youtubeId}
            && (forall v :: v in t.videos && v != r.youtubeId ==> u.videos[v] == t.videos[v])
    ensures var row := SaveRecord(t, channel, r).videos[r.youtubeId];
            && row.channel == channel && row.viewCount == r.viewCount && row.likeCount == r.likeCount
            && row.statics == if r.youtubeId in t.videos then t.videos[r.youtubeId].statics else r.statics
    ensures SaveRecord(t, channel, r).metrics == t.metrics + [MetricsRow(r.youtubeId, r.viewCount, r.likeCount)]
    ensures var ts := SaveRecord(t, channel, r).transcripts;
            if r.transcript.Some? && !HasTranscript(t.transcripts, r.youtubeId)
            then ts == t.transcripts + [TranscriptFrom(r.youtubeId, r.transcript.value)]
            else ts == t.transcripts
  {
  }

  /** The whole save loop over `rs`, in order. */
  function SaveAll(t: Tables, channel: string, rs: seq<VideoRecord>): Tables {
    if rs == [] then t else SaveRecord(SaveAll(t, channel, rs[..|rs| - 1]), channel, rs[|rs| - 1])
  }

  // ---- integrity ----

  /** Saving the videos of a channel that is in the store keeps every
      reference valid and at most one transcript per video. */
  lemma SaveRecordValid(t: Tables, channel: string, r: VideoRecord)
    requires Valid(t) && channel in t.channels
    ensures Valid(SaveRecord(t, channel, r))
  {
    var u := SaveRecord(t, channel, r);
    if |u.transcripts| == |t.transcripts| + 1 {
      forall i, j | 0 <= i < j < |u.transcripts| ensures u.transcripts[i].video != u.transcripts[j].video {
        if j == |t.transcripts| {
          assert u.transcripts[i] == t.transcripts[i];
        } else {
          assert u.transcripts[i] == t.transcripts[i] && u.transcripts[j] == t.transcripts[j];
        }
      }
      forall i | 0 <= i < |u.transcripts| ensures u.transcripts[i].video in u.videos {
        if i < |t.transcripts| {
          assert u.transcripts[i] == t.transcripts[i];
        }
      }
    }
    forall i | 0 <= i < |u.metrics| ensures u.metrics[i].video in u.videos {
      if i < |t.metrics| {
        assert u.metrics[i] == t.metrics[i];
      }
    }
  }

  lemma {:induction false} SaveAllValid(t: Tables, channel: string, rs: seq<VideoRecord>)
    requires Valid(t) && channel in t.channels
    ensures Valid(SaveAll(t, channel, rs)) && SaveAll(t, channel, rs).channels == t.channels
  {
    if rs != [] {
      SaveAllValid(t, channel, rs[..|rs| - 1]);
      SaveRecordValid(SaveAll(t, channel, rs[..|rs| - 1]), channel, rs[|rs| - 1]);
    }
  }

  /** Saving two runs one after the other is saving their concatenation. */
  lemma {:induction false} SaveAllAppend(t: Tables, channel: string, a: seq<VideoRecord>, b: seq<VideoRecord>)
    ensures SaveAll(t, channel, a + b) == SaveAll(SaveAll(t, channel, a), channel, b)
  {
    if b == [] {
      assert a + b == a;
    } else {
      assert (a + b)[..|a + b| - 1] == a + b[..|b| - 1];
      SaveAllAppend(t, channel, a, b[..|b| - 1]);
    }
  }

  // ---- metrics ----

  /** One metrics row per record, in order. */
  function MetricsOf(rs: seq<VideoRecord>): (ms: seq<MetricsRow>)
    ensures |ms| == |rs| && forall i :: 0 <= i < |rs| ==> ms[i] == MetricsRow(rs[i].youtubeId, rs[i].viewCount, rs[i].likeCount)
  {
    if rs == [] then [] else MetricsOf(rs[..|rs| - 1]) + [MetricsFor(rs[|rs| - 1])]
  }

  /** Every saved record appends exactly one metrics row, with the counts
      written to its video; the rows already there are left as they were. */
  lemma {:induction false} SaveAllMetrics(t: Tables, channel: string, rs: seq<VideoRecord>)
    ensures SaveAll(t, channel, rs).metrics == t.metrics + MetricsOf(rs)
  {
    if rs != [] {
      SaveAllMetrics(t, channel, rs[..|rs| - 1]);
      assert MetricsOf(rs) == MetricsOf(rs[..|rs| - 1]) + [MetricsFor(rs[|rs| - 1])];
    }
  }

  /** The newest metrics row of every video that has one holds the video's
      current counts. */
  ghost predicate Ledger(t: Tables) {
    forall v :: v in t.videos && History(t.metrics, v) != [] ==>
      History(t.metrics, v)[0] == MetricsRow(v, t.videos[v].viewCount, t.videos[v].likeCount)
  }

  lemma HistoryOfSaved(t: Tables, channel: string, r: VideoRecord, v: string)
    ensures History(SaveRecord(t, channel, r).metrics, v)
         == (if v == r.youtubeId then [MetricsFor(r)] else []) + History(t.metrics, v)
  {
    HistoryAppend(t.metrics, [MetricsFor(r)], v);
    assert History([MetricsFor(r)], v) == (if v == r.youtubeId then [MetricsFor(r)] else []) + History([], v);
  }

  lemma SaveRecordLedger(t: Tables, channel: string, r: VideoRecord)
    requires Ledger(t)
    ensures Ledger(SaveRecord(t, channel, r))
  {
    var u := SaveRecord(t, channel, r);
    forall v | v in u.videos && History(u.metrics, v) != []
      ensures History(u.metrics, v)[0] == MetricsRow(v, u.videos[v].viewCount, u.videos[v].likeCount)
    {
      HistoryOfSaved(t, channel, r, v);
    }
  }

  lemma {:induction false} SaveAllLedger(t: Tables, channel: string, rs: seq<VideoRecord>)
    requires Ledger(t)
    ensures Ledger(SaveAll(t, channel, rs))
  {
    if rs != [] {
      SaveAllLedger(t, channel, rs[..|rs| - 1]);
      SaveRecordLedger(SaveAll(t, channel, rs[..|rs| - 1]), channel, rs[|rs| - 1]);
    }
  }

  // ---- videos ----

  /** The first record with id `id`. */
  function FirstRecord(rs: seq<VideoRecord>, id: string): (r: VideoRecord)
    requires id in Ids(rs)
    ensures r in rs && r.youtubeId == id
  {
    if id in Ids(rs[..|rs| - 1]) then FirstRecord(rs[..|rs| - 1], id) else rs[|rs| - 1]
  }

  /** The last record with id `id`. */
  function LastRecord(rs: seq<VideoRecord>, id: string): (r: VideoRecord)
    requires id in Ids(rs)
    ensures r in rs && r.youtubeId == id
  {
    if rs[|rs| - 1].youtubeId == id then rs[|rs| - 1] else LastRecord(rs[..|rs| - 1], id)
  }

  lemma IdsLast(rs: seq<VideoRecord>, id: string)
    requires rs != []
    ensures id in Ids(rs) <==> id in Ids(rs[..|rs| - 1]) || rs[|rs| - 1].youtubeId == id
  {
    assert Ids(rs) == Ids(rs[..|rs| - 1]) + [rs[|rs| - 1].youtubeId];
  }

  /** What the save loop leaves in a video's row: a video no record names is
      untouched; for one that is named, the channel is the saving channel,
      the counts are the last record's, and the static fields are those the
      row already had or, for a new row, those of the first record. */
  predicate VideoAfter(t: Tables, channel: string, rs: seq<VideoRecord>, id: string, u: Tables) {
    if id in Ids(rs) then
      && id in u.videos
      && u.videos[id] == VideoRow(channel,
                                 if id in t.videos then t.videos[id].statics else FirstRecord(rs, id).statics,
                                 LastRecord(rs, id).viewCount, LastRecord(rs, id).likeCount)
    else
      (id in u.videos <==> id in t.videos) && (id in t.videos ==> u.videos[id] == t.videos[id])
  }

  lemma {:induction false} SaveAllVideo(t: Tables, channel: string, rs: seq<VideoRecord>, id: string)
    ensures VideoAfter(t, channel, rs, id, SaveAll(t, channel, rs))
  {
    if rs != [] {
      var init := rs[..|rs| - 1];
      SaveAllVideo(t, channel, init, id);
      IdsLast(rs, id);
    }
  }

  // ---- transcripts ----

  /** The ids of the records that carry a transcript. */
  function TranscriptIds(rs: seq<VideoRecord>): (ids: set<string>)
    ensures forall i :: 0 <= i < |rs| && rs[i].transcript.Some? ==> rs[i].youtubeId in ids
  {
    if rs == [] then {}
    else TranscriptIds(rs[..|rs| - 1]) + (if rs[|rs| - 1].transcript.Some? then {rs[|rs| - 1].youtubeId} else {})
  }

  lemma HasTranscriptPrefix(ts: seq<TranscriptRow>, us: seq<TranscriptRow>, v: string)
    requires ts <= us && HasTranscript(ts, v)
    ensures HasTranscript(us, v)
  {
    var i :| 0 <= i < |ts| && ts[i].video == v;
    assert us[i] == ts[i];
  }

  lemma SaveRecordTranscripts(t: Tables, channel: string, r: VideoRecord, v: string)
    ensures HasTranscript(SaveRecord(t, channel, r).transcripts, v)
        <==> HasTranscript(t.transcripts, v) || (r.transcript.Some? && r.youtubeId == v)
  {
    var u := SaveRecord(t, channel, r);
    if HasTranscript(t.transcripts, v) {
      HasTranscriptPrefix(t.transcripts, u.transcripts, v);
    } else if r.transcript.Some? && r.youtubeId == v {
      assert u.transcripts[|t.transcripts|].video == v;
    }
  }

  /** Transcripts are only ever added: the rows already there stay, in
      place; and after the loop a video has a transcript exactly when it had
      one before or some record of it carried one. */
  lemma {:induction false} SaveAllTranscripts(t: Tables, channel: string, rs: seq<VideoRecord>, v: string)
    ensures t.transcripts <= SaveAll(t, channel, rs).transcripts
    ensures HasTranscript(SaveAll(t, channel, rs).transcripts, v) <==> HasTranscript(t.transcripts, v) || v in TranscriptIds(rs)
  {
    if rs != [] {
      var init := rs[..|rs| - 1];
      SaveAllTranscripts(t, channel, init, v);
      SaveRecordTranscripts(SaveAll(t, channel, init), channel, rs[|rs| - 1], v);
    }
  }

  /** A video that already has a transcript keeps exactly the rows it had:
      a second payload for it is dropped. */
  lemma SaveRecordKeepsTranscript(t: Tables, channel: string, r: VideoRecord)
    requires HasTranscript(t.transcripts, r.youtubeId)
    ensures SaveRecord(t, channel, r).transcripts == t.transcripts
  {
  }

  // ---- idempotence ----

  /** Saving the same records a second time changes no video row and adds
      no transcript; it only appends a second metrics row per record. */
  lemma SaveAllTwice(t: Tables, channel: string, rs: seq<VideoRecord>)
    ensures SaveAll(SaveAll(t, channel, rs), channel, rs).videos == SaveAll(t, channel, rs).videos
    ensures SaveAll(SaveAll(t, channel, rs), channel, rs).transcripts == SaveAll(t, channel, rs).transcripts
    ensures SaveAll(SaveAll(t, channel, rs), channel, rs).metrics == t.metrics + MetricsOf(rs) + MetricsOf(rs)
  {
    var once := SaveAll(t, channel, rs);
    var twice := SaveAll(once, channel, rs);
    forall id | true
      ensures (id in twice.videos <==> id in once.videos) && (id in once.videos ==> twice.videos[id] == once.videos[id])
    {
      SaveAllVideo(t, channel, rs, id);
      SaveAllVideo(once, channel, rs, id);
    }
    assert twice.videos == once.videos;
    SaveAllMetrics(t, channel, rs);
    SaveAllMetrics(once, channel, rs);
    forall v | v in TranscriptIds(rs) ensures HasTranscript(once.transcripts, v) {
      SaveAllTranscripts(t, channel, rs, v);
    }
    TranscriptsSettled(once, channel, rs);
  }

  /** Once every video with a transcript in `rs` has one, saving `rs`
      leaves the transcripts alone. */
  lemma {:induction false} TranscriptsSettled(t: Tables, channel: string, rs: seq<VideoRecord>)
    requires forall v :: v in TranscriptIds(rs) ==> HasTranscript(t.transcripts, v)
    ensures SaveAll(t, channel, rs).transcripts == t.transcripts
  {
    if rs != [] {
      var init := rs[..|rs| - 1];
      TranscriptsSettled(t, channel, init);
    }
  }

  // ---- the create path ----

  /** The `Video` that `update_or_create` builds on first sighting as the
      code is written: only the lookup key and the defaults (channel and the
      two counts) are passed. */
  function CreateAsWritten(channel: string, r: VideoRecord): (v: VideoInstance)
    ensures v.publishedAt.None? && v.duration.None?
  {
    NewVideo(VideoArgs(r.youtubeId, Some(channel), None, None, None, Some(r.viewCount), Some(r.likeCount), None))
  }

  /** ... so its INSERT violates NOT NULL on `published_at` before the code
      ever gets to set the static fields. */
  lemma CreateAsWrittenFails(channel: string, r: VideoRecord)
    ensures Insert(CreateAsWritten(channel, r)) == Err(IntegrityError("published_at"))
  {
  }

  /** The create the code evidently intends: all fields of the record. */
  function CreateIntended(channel: string, r: VideoRecord): VideoInstance {
    NewVideo(VideoArgs(r.youtubeId, Some(channel), Some(r.statics.title), Some(r.statics.description),
                       Some(r.statics.publishedAt), Some(r.viewCount), Some(r.likeCount), Some(r.statics.duration)))
  }

  /** Its INSERT succeeds and writes the row `SaveRecord` creates. */
  lemma CreateIntendedInserts(channel: string, r: VideoRecord)
    ensures Insert(CreateIntended(channel, r)) == Ok(CreatedRow(channel, r))
  {
  }
}
