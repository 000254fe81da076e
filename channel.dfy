/** The channel side of the service: `get_channel_data`
    (youtube/services/youtube.py:235-253), which looks a channel up by
    handle or by id and maps the first match to a flat dict, the uploads
    playlist lookup at the start of `_get_channel_videos_async`
    (youtube/services/youtube.py:166-172), and the channel upsert of
    `save_channel_with_videos` (youtube/services/youtube.py:219-227). */
module Channels {
  import opened Builtins
  import opened Models

  /** The keyword the channels.list request is made with. */
  datatype ChannelQuery = ForHandle(handle: string) | ById(id: string)

  /** `forHandle=identifier[1:]` for an identifier starting with '@',
      `id=identifier` otherwise. */
  function QueryFor(identifier: string): (q: ChannelQuery)
    ensures q.ForHandle? <==> |identifier| > 0 && identifier[0] == '@'
    ensures q.ForHandle? ==> "@" + q.handle == identifier
    ensures q.ById? ==> q.id == identifier
  {
    if |identifier| > 0 && identifier[0] == '@' then ForHandle(identifier[1..]) else ById(identifier)
  }

  /** An entry of a channels.list response (`part="snippet,statistics"`);
      a hidden subscriber count is left out of the statistics. */
  datatype ChannelItem = ChannelItem(
    id: string,
    title: string,
    description: string,
    subscriberCount: Option<string>,
    videoCount: Option<string>)

  /** The dict `get_channel_data` returns. */
  datatype ChannelData = ChannelData(youtubeId: string, title: string, description: string, subscriberCount: int, videoCount: int)

  /** `get_channel_data` once the response is in: `items` is None when the
      response has no 'items' key, which is how the API answers a query
      that matches nothing. */
  function ChannelDataFrom(identifier: string, items: Option<seq<ChannelItem>>): (r: Result<ChannelData>)
    ensures items.None? ==> r == Err(KeyError("items"))
    ensures items == Some([]) ==> r == Err(ValueError(NoChannelFound(identifier)))
    ensures r.Ok? <==> && items.Some? && items.value != []
                       && CountField(items.value[0].subscriberCount).Ok?
                       && CountField(items.value[0].videoCount).Ok?
    ensures r.Ok? ==> && r.value.youtubeId == items.value[0].id
                      && r.value.title == items.value[0].title
                      && r.value.description == items.value[0].description
                      && Ok(r.value.subscriberCount) == CountField(items.value[0].subscriberCount)
                      && Ok(r.value.videoCount) == CountField(items.value[0].videoCount)
  {
    if items.None? then Err(KeyError("items"))
    else if items.value == [] then Err(ValueError(NoChannelFound(identifier)))
    else
      var c := items.value[0];
      match CountField(c.subscriberCount)
      case Err(e) => Err(e)
      case Ok(subscribers) =>
        match CountField(c.videoCount)
        case Err(e) => Err(e)
        case Ok(videos) => Ok(ChannelData(c.id, c.title, c.description, subscribers, videos))
  }

  /** A channel whose statistics leave both counts out gets 0 for each. */
  lemma MissingCountsAreZero(identifier: string, items: seq<ChannelItem>)
    requires items != [] && items[0].subscriberCount.None? && items[0].videoCount.None?
    ensures ChannelDataFrom(identifier, Some(items)).Ok?
    ensures ChannelDataFrom(identifier, Some(items)).value.subscriberCount == 0
    ensures ChannelDataFrom(identifier, Some(items)).value.videoCount == 0
  {
  }

  /** Counts written by `str()` are read back as they were. */
  lemma CountsRoundTrip(identifier: string, c: ChannelItem, subscribers: nat, videos: nat, rest: seq<ChannelItem>)
    requires c.subscriberCount == Some(Show(subscribers)) && c.videoCount == Some(Show(videos))
    ensures ChannelDataFrom(identifier, Some([c] + rest)) == Ok(ChannelData(c.id, c.title, c.description, subscribers, videos))
  {
    ParseIntShow(subscribers);
    ParseIntShow(videos);
  }

  /** `(...)['items'][0]['contentDetails']['relatedPlaylists']['uploads']`
      over the uploads playlist ids of the matching channels. */
  function UploadsPlaylist(items: Option<seq<string>>): (r: Result<string>)
    ensures items.None? ==> r == Err(KeyError("items"))
    ensures items == Some([]) ==> r == Err(IndexError)
    ensures r.Ok? <==> items.Some? && items.value != []
    ensures r.Ok? ==> r.value == items.value[0]
  {
    if items.None? then Err(KeyError("items"))
    else if items.value == [] then Err(IndexError)
    else Ok(items.value[0])
  }

  function RowFor(d: ChannelData): ChannelRow {
    ChannelRow(d.title, d.description, d.subscriberCount, d.videoCount)
  }

  /** `Channel.objects.update_or_create(youtube_id=..., defaults={...})`:
      all four fields are written whether the row is new or not. */
  function UpsertChannel(t: Tables, d: ChannelData): (u: Tables)
    ensures u.channels.Keys == t.channels.Keys + {d.youtubeId}
    ensures u.channels[d.youtubeId] == ChannelRow(d.title, d.description, d.subscriberCount, d.videoCount)
    ensures forall k :: k in t.channels && k != d.youtubeId ==> u.channels[k] == t.channels[k]
    ensures u.videos == t.videos && u.metrics == t.metrics && u.transcripts == t.transcripts
  {
    t.(channels := t.channels[d.youtubeId := RowFor(d)])
  }

  /** The upsert keeps the store valid and puts the channel in it, so the
      videos saved after it can refer to it. */
  lemma UpsertChannelValid(t: Tables, d: ChannelData)
    requires Valid(t)
    ensures Valid(UpsertChannel(t, d)) && d.youtubeId in UpsertChannel(t, d).channels
  {
  }
}
