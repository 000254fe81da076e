/** The pure core of `_fetch_transcript` (youtube/services/youtube.py:28-63):
    the caption entries' texts joined by single spaces, paired with the
    language and the generated flag of the video's generated English track.
    An empty caption list gives no transcript, and so does every exception
    raised on the way: the function catches them all and returns None.

    The two calls into the transcript library are oracles: `captions` is
    what the caption fetch returned or the exception it raised, and
    `generatedEnglish` is what the generated English track lookup gives
    (two lookups of the same list, so the same answer both times). */
module Transcripts {
  import opened Builtins

  /** What a library call did: returned a value or raised. */
  datatype Fallible<T> = Returned(value: T) | Raised(message: string)

  /** One caption entry; `text` is None when the entry has no 'text' key. */
  datatype CaptionEntry = CaptionEntry(text: Option<string>)

  datatype Track = Track(languageCode: string, isGenerated: bool)

  datatype TranscriptApiReply = TranscriptApiReply(
    captions: Fallible<seq<CaptionEntry>>,
    generatedEnglish: Fallible<Track>)

  /** The dict `_fetch_transcript` returns. */
  datatype TranscriptPayload = TranscriptPayload(content: string, language: string, isGenerated: bool)

  /** `" ".join(ts)` */
  function JoinWithSpaces(ts: seq<string>): string {
    if |ts| == 0 then ""
    else if |ts| == 1 then ts[0]
    else JoinWithSpaces(ts[..|ts| - 1]) + " " + ts[|ts| - 1]
  }

  predicate AllHaveText(es: seq<CaptionEntry>) {
    forall i :: 0 <= i < |es| ==> es[i].text.Some?
  }

  /** `entry['text'] for entry in es`, or None when one entry lacks the key
      (the KeyError the join would raise). */
  function Texts(es: seq<CaptionEntry>): (r: Option<seq<string>>)
    ensures r.Some? <==> AllHaveText(es)
    ensures r.Some? ==> |r.value| == |es| && forall i :: 0 <= i < |es| ==> r.value[i] == es[i].text.value
  {
    if es == [] then Some([])
    else
      match Texts(es[..|es| - 1])
      case None => None
      case Some(init) =>
        if es[|es| - 1].text.None? then None else Some(init + [es[|es| - 1].text.value])
  }

  /** The transcript, or None when the source returns None (an empty caption
      list) or when anything raised. */
  function FetchTranscript(reply: TranscriptApiReply): (r: Option<TranscriptPayload>)
    ensures r.Some? <==> && reply.captions.Returned? && reply.captions.value != []
                         && AllHaveText(reply.captions.value) && reply.generatedEnglish.Returned?
    ensures r.Some? ==> && r.value.language == reply.generatedEnglish.value.languageCode
                        && r.value.isGenerated == reply.generatedEnglish.value.isGenerated
    ensures r.Some? ==> r.value.content == JoinWithSpaces(Texts(reply.captions.value).value)
  {
    match reply.captions
    case Raised(_) => None
    case Returned(entries) =>
      if entries == [] then None
      else
        match Texts(entries)
        case None => None
        case Some(texts) =>
          match reply.generatedEnglish
          case Raised(_) => None
          case Returned(track) => Some(TranscriptPayload(JoinWithSpaces(texts), track.languageCode, track.isGenerated))
  }

  /** Whatever the library raises, the result is None. */
  lemma RaisedMeansNone(reply: TranscriptApiReply)
    requires reply.captions.Raised? || reply.generatedEnglish.Raised?
    ensures FetchTranscript(reply).None?
  {
  }

  // ---- the join and its inverse ----

  /** The index of the last `c` in `s`. */
  function LastIndexOf(s: string, c: char): (i: nat)
    requires c in s
    ensures i < |s| && s[i] == c && c !in s[i + 1..]
  {
    if s[|s| - 1] == c then |s| - 1
    else
      var i := LastIndexOf(s[..|s| - 1], c);
      assert s[i + 1..] == s[..|s| - 1][i + 1..] + [s[|s| - 1]];
      i
  }

  /** `s.split(" ")`: the pieces between single spaces, empty pieces kept. */
  function SplitOnSpaces(s: string): (r: seq<string>)
    ensures |r| > 0
    decreases |s|
  {
    if ' ' !in s then [s]
    else
      var i := LastIndexOf(s, ' ');
      SplitOnSpaces(s[..i]) + [s[i + 1..]]
  }

  predicate NoSpaces(ts: seq<string>) {
    forall i :: 0 <= i < |ts| ==> ' ' !in ts[i]
  }

  lemma JoinLacksSpaces(ts: seq<string>)
    requires |ts| == 1 && NoSpaces(ts)
    ensures ' ' !in JoinWithSpaces(ts)
  {
    assert ' ' !in ts[0];
  }

  lemma SplitLast(init: string, last: string)
    requires ' ' !in last
    ensures SplitOnSpaces(init + " " + last) == SplitOnSpaces(init) + [last]
  {
    var s := init + " " + last;
    assert s[|init|] == ' ';
    var i := LastIndexOf(s, ' ');
    if i < |init| {
      assert false;
    } else if i > |init| {
      assert false;
    }
    assert s[..i] == init;
    assert s[i + 1..] == last;
  }

  /** Joining texts that hold no space and splitting the result again gives
      the texts back: the join loses nothing. */
  lemma {:induction false} SplitJoin(ts: seq<string>)
    requires |ts| > 0 && NoSpaces(ts)
    ensures SplitOnSpaces(JoinWithSpaces(ts)) == ts
  {
    if |ts| == 1 {
      JoinLacksSpaces(ts);
    } else {
      var init := ts[..|ts| - 1];
      assert NoSpaces(init) by {
        forall i | 0 <= i < |init| ensures ' ' !in init[i] {
          assert init[i] == ts[i];
        }
      }
      SplitJoin(init);
      assert ' ' !in ts[|ts| - 1];
      SplitLast(JoinWithSpaces(init), ts[|ts| - 1]);
      assert init + [ts[|ts| - 1]] == ts;
    }
  }

  /** Each separator is exactly one space: the join is as long as the texts
      together plus one character between each neighbouring pair. */
  lemma {:induction false} JoinLength(ts: seq<string>)
    requires |ts| > 0
    ensures |JoinWithSpaces(ts)| == TotalLength(ts) + |ts| - 1
  {
    if |ts| > 1 {
      JoinLength(ts[..|ts| - 1]);
    }
  }

  function TotalLength(ts: seq<string>): nat {
    if ts == [] then 0 else TotalLength(ts[..|ts| - 1]) + |ts[|ts| - 1]|
  }

  /** Joining two non-empty runs of texts is joining each and putting one
      space between: the separator does not depend on where the list is
      cut. */
  lemma {:induction false} JoinAppend(a: seq<string>, b: seq<string>)
    requires |a| > 0 && |b| > 0
    ensures JoinWithSpaces(a + b) == JoinWithSpaces(a) + " " + JoinWithSpaces(b)
  {
    if |b| == 1 {
      assert (a + b)[..|a + b| - 1] == a;
    } else {
      var b0 := b[..|b| - 1];
      assert (a + b)[..|a + b| - 1] == a + b0;
      JoinAppend(a, b0);
    }
  }

  /** A successful fetch of space-free caption texts can be split back
      into exactly those texts. */
  lemma ContentSplitsBack(reply: TranscriptApiReply)
    requires FetchTranscript(reply).Some?
    requires NoSpaces(Texts(reply.captions.value).value)
    ensures SplitOnSpaces(FetchTranscript(reply).value.content) == Texts(reply.captions.value).value
  {
    SplitJoin(Texts(reply.captions.value).value);
  }
}
