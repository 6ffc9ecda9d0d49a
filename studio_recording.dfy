/**
 * Recording takes from the master output (`StudioRecordingService`): one
 * media recorder at a time, its non-empty data chunks buffered, and each
 * finished recording saved as a take at the front of the take list.
 */
module StudioRecording {
  import opened Wrappers
  import opened Lists

  datatype RecordingFormat = WebmOpus | Webm | Wav | Mp3

  function MimeType(f: RecordingFormat): string {
    match f
    case WebmOpus => "audio/webm;codecs=opus"
    case Webm => "audio/webm"
    case Wav => "audio/wav"
    case Mp3 => "audio/mp3"
  }

  /** The formats offered, in this order, when the browser supports them. */
  const CANDIDATES: seq<RecordingFormat> := [Mp3, Wav, WebmOpus, Webm]

  lemma EveryFormatIsCandidate(f: RecordingFormat)
    ensures f in CANDIDATES
  {
    assert CANDIDATES[0] == Mp3 && CANDIDATES[1] == Wav && CANDIDATES[2] == WebmOpus && CANDIDATES[3] == Webm;
  }

  /** `candidates.filter(...)`: nothing at all without a MediaRecorder,
    * otherwise the candidates the browser supports. */
  function SupportedAmong(candidates: seq<RecordingFormat>, hasRecorder: bool, supported: set<RecordingFormat>): (r: seq<RecordingFormat>)
    ensures forall f :: f in r <==> f in candidates && hasRecorder && f in supported
  {
    if |candidates| == 0 then []
    else if hasRecorder && candidates[0] in supported then [candidates[0]] + SupportedAmong(candidates[1..], hasRecorder, supported)
    else SupportedAmong(candidates[1..], hasRecorder, supported)
  }

  lemma {:induction false} SupportedKeepsOrder(candidates: seq<RecordingFormat>, hasRecorder: bool, supported: set<RecordingFormat>)
    ensures IsSubsequence(SupportedAmong(candidates, hasRecorder, supported), candidates)
  {
    if |candidates| > 0 {
      SupportedKeepsOrder(candidates[1..], hasRecorder, supported);
      var rest := SupportedAmong(candidates[1..], hasRecorder, supported);
      if hasRecorder && candidates[0] in supported {
        assert ([candidates[0]] + rest)[1..] == rest;
      }
    }
  }

  /** `getSupportedFormats`: an order-keeping selection of the four candidates. */
  function SupportedFormats(hasRecorder: bool, supported: set<RecordingFormat>): (r: seq<RecordingFormat>)
    ensures IsSubsequence(r, CANDIDATES)
    ensures forall f :: f in r <==> hasRecorder && f in supported
  {
    SupportedKeepsOrder(CANDIDATES, hasRecorder, supported);
    assert forall f :: f in CANDIDATES by {
      forall f: RecordingFormat ensures f in CANDIDATES {
        EveryFormatIsCandidate(f);
      }
    }
    SupportedAmong(CANDIDATES, hasRecorder, supported)
  }

  /** A recorded data chunk; only its size matters here. */
  datatype Chunk = Chunk(size: nat)

  /** The live recorder: the MIME type the browser chose (possibly empty),
    * and the take name and requested format its stop handler will save. */
  datatype Recorder = Recorder(mimeType: string, name: string, format: RecordingFormat)

  datatype Take = Take(
    id: string, name: string, startedAt: real, durationMs: real, format: string,
    blob: seq<Chunk>, channels: seq<string>)

  /** `saveTake`'s format: the recorder's MIME type, or the requested one when empty. */
  function TakeFormat(r: Recorder): string {
    if r.mimeType != "" then r.mimeType else MimeType(r.format)
  }

  class StudioRecordingService {
    var recorder: Option<Recorder>
    var chunks: seq<Chunk>
    var startTime: real
    var armedChannels: seq<string>
    var isRecording: bool
    var elapsedMs: real
    var takes: seq<Take>

    constructor()
      ensures recorder.None? && chunks == [] && startTime == 0.0 && armedChannels == []
      ensures !isRecording && elapsedMs == 0.0 && takes == []
    {
      recorder := None;
      chunks := [];
      startTime := 0.0;
      armedChannels := [];
      isRecording := false;
      elapsedMs := 0.0;
      takes := [];
    }

    /** `saveTake`, run by the recorder's stop handler: the take goes to the
      * front; the buffer, the clock display and the recorder are reset. */
    method SaveTake(now: real, id: string)
      requires recorder.Some?
      modifies this
      ensures takes == [Take(id, old(recorder).value.name, old(startTime), now - old(startTime),
                             TakeFormat(old(recorder).value), old(chunks), old(armedChannels))] + old(takes)
      ensures elapsedMs == 0.0 && chunks == [] && recorder.None?
      ensures startTime == old(startTime) && armedChannels == old(armedChannels) && isRecording == old(isRecording)
    {
      var r := recorder.value;
      var take := Take(id, r.name, startTime, now - startTime, TakeFormat(r), chunks, armedChannels);
      takes := [take] + takes;
      elapsedMs := 0.0;
      chunks := [];
      recorder := None;
    }

    /** `stopRecording`: with no recorder it does nothing; otherwise the
      * recorder stops, its stop handler saves the take, and recording ends.
      * `now` is the clock at the stop event and `id` the take's random id. */
    method StopRecording(now: real, id: string)
      modifies this
      ensures old(recorder).None? ==>
                recorder == old(recorder) && takes == old(takes) && isRecording == old(isRecording) &&
                chunks == old(chunks) && elapsedMs == old(elapsedMs)
      ensures old(recorder).Some? ==>
                recorder.None? && !isRecording && chunks == [] && elapsedMs == 0.0 &&
                takes == [Take(id, old(recorder).value.name, old(startTime), now - old(startTime),
                               TakeFormat(old(recorder).value), old(chunks), old(armedChannels))] + old(takes)
      ensures startTime == old(startTime) && armedChannels == old(armedChannels)
    {
      if recorder.None? {
        return;
      }
      SaveTake(now, id);
      isRecording := false;
    }

    /** `startRecording`: a recording already running is stopped and saved
      * first, so at most one take is ever being captured. `stopAt`/`stopId`
      * are the clock and take id of that earlier stop, `now` the new start
      * time and `mimeType` what the browser picked for the new recorder. */
    method StartRecording(format: RecordingFormat, channels: seq<string>, name: string,
                          mimeType: string, now: real, stopAt: real, stopId: string)
      modifies this
      ensures recorder == Some(Recorder(mimeType, name, format))
      ensures isRecording && chunks == [] && startTime == now && armedChannels == channels
      ensures old(isRecording) && old(recorder).Some? ==>
                takes == [Take(stopId, old(recorder).value.name, old(startTime), stopAt - old(startTime),
                               TakeFormat(old(recorder).value), old(chunks), old(armedChannels))] + old(takes)
      ensures !(old(isRecording) && old(recorder).Some?) ==> takes == old(takes)
    {
      if isRecording {
        StopRecording(stopAt, stopId);
      }
      recorder := Some(Recorder(mimeType, name, format));
      chunks := [];
      startTime := now;
      armedChannels := channels;
      isRecording := true;
    }

    /** The recorder's `ondataavailable`: empty chunks are dropped. */
    method OnDataAvailable(c: Chunk)
      modifies this
      ensures chunks == old(chunks) + (if c.size > 0 then [c] else [])
      ensures recorder == old(recorder) && takes == old(takes) && isRecording == old(isRecording)
    {
      if c.size > 0 {
        chunks := chunks + [c];
      }
    }

    /** `deleteTake`. */
    method DeleteTake(id: string)
      modifies this
      ensures takes == WithoutTake(old(takes), id)
      ensures recorder == old(recorder) && chunks == old(chunks) && isRecording == old(isRecording)
    {
      takes := WithoutTake(takes, id);
    }

    /** `tickElapsed`, one animation frame: the display follows the clock while recording. */
    method TickElapsed(now: real)
      modifies this
      ensures elapsedMs == if old(isRecording) then now - startTime else old(elapsedMs)
      ensures recorder == old(recorder) && takes == old(takes) && chunks == old(chunks)
      ensures isRecording == old(isRecording) && startTime == old(startTime)
    {
      if isRecording {
        elapsedMs := now - startTime;
      }
    }
  }

  /** `list.filter(take => take.id !== id)`. */
  function WithoutTake(takes: seq<Take>, id: string): (r: seq<Take>)
    ensures forall t :: t in r <==> t in takes && t.id != id
  {
    if |takes| == 0 then []
    else if takes[0].id == id then WithoutTake(takes[1..], id)
    else [takes[0]] + WithoutTake(takes[1..], id)
  }

  lemma {:induction false} WithoutTakeKeepsOrder(takes: seq<Take>, id: string)
    ensures IsSubsequence(WithoutTake(takes, id), takes)
  {
    if |takes| > 0 {
      WithoutTakeKeepsOrder(takes[1..], id);
      var rest := WithoutTake(takes[1..], id);
      if takes[0].id != id {
        assert ([takes[0]] + rest)[1..] == rest;
      }
    }
  }

  /** Every chunk a take holds is non-empty: only non-empty chunks are buffered. */
  predicate NonEmptyChunks(chunks: seq<Chunk>) {
    forall i :: 0 <= i < |chunks| ==> chunks[i].size > 0
  }

  lemma BufferKeepsChunksNonEmpty(chunks: seq<Chunk>, c: Chunk)
    requires NonEmptyChunks(chunks)
    ensures NonEmptyChunks(chunks + (if c.size > 0 then [c] else []))
  {
  }
}
