/** The content script's recording bookkeeping: the chunks collected by the media
    recorder, the isRecording flag, and what each recorder callback and timer does to
    them. When the callbacks fire is left to the caller. */
module Recording {
  import opened Wrappers
  import opened Codec
  import opened Background

  /** The bytes of a Blob built from the chunks, in order. */
  function Concat(chunks: seq<seq<Byte>>): seq<Byte>
    decreases |chunks|
  {
    if |chunks| == 0 then [] else Concat(chunks[..|chunks| - 1]) + chunks[|chunks| - 1]
  }

  /** The sum of the chunk sizes. */
  function TotalSize(chunks: seq<seq<Byte>>): nat
    decreases |chunks|
  {
    if |chunks| == 0 then 0 else TotalSize(chunks[..|chunks| - 1]) + |chunks[|chunks| - 1]|
  }

  /** The Blob built from the chunks is as large as the chunks together. */
  lemma {:induction false} ConcatSize(chunks: seq<seq<Byte>>)
    ensures |Concat(chunks)| == TotalSize(chunks)
    decreases |chunks|
  {
    if |chunks| > 0 {
      ConcatSize(chunks[..|chunks| - 1]);
    }
  }

  /** Non-empty chunks have a non-empty Blob. */
  lemma {:induction false} NonEmptyChunksNonEmptyBlob(chunks: seq<seq<Byte>>)
    requires |chunks| > 0 && forall i :: 0 <= i < |chunks| ==> |chunks[i]| > 0
    ensures TotalSize(chunks) >= |chunks|
    decreases |chunks|
  {
    if |chunks| > 1 {
      NonEmptyChunksNonEmptyBlob(chunks[..|chunks| - 1]);
    }
  }

  /** The message processRecordedAudio sends for a recording. */
  function VoiceNoteMessage(audio: seq<Byte>): Message
  {
    Message("PROCESS_VOICE_NOTE", Undefined, Undefined, NumArray(ArrayFrom(audio)),
            Number(|audio|), Undefined, "")
  }

  /** The minimum Blob size the content script sends. */
  const MinSendSize := 100

  /** The voice note a recording turns into, end to end: the background script picks
      the array, rebuilds exactly the recorded bytes, and uploads them when there are
      at least 1000 of them; between 100 and 999 bytes the content script sends the
      message and the background script rejects it as too short. */
  lemma VoiceNoteTransport(audio: seq<Byte>, serverUrl: string, reply: FetchOutcome)
    ensures SelectPayload(VoiceNoteMessage(audio)) == Ok(ArrayBuffer(audio))
    ensures VoiceNoteMessage(audio).byteLength == Number(|audio|)
    ensures var p := ProcessVoiceNote(ArrayBuffer(audio), serverUrl, reply);
            (|audio| >= MinUploadSize ==> p.upload == Some(Upload(serverUrl + "/process_audio", audio)))
            && (|audio| < MinUploadSize ==> p.upload.None? && p.outcome == Err(Error(TooShort)))
  {
    DecodeEncode(audio);
  }

  /** The MediaRecorder's state, as far as the bookkeeping reads it. */
  datatype RecorderState = Inactive | RecordingState

  /** How getUserMedia and the MediaRecorder set-up in startRecording end. */
  datatype StartOutcome =
    | PermissionDenied       // getUserMedia rejected: no stream
    | RecorderCreateFailed   // the stream was obtained, new MediaRecorder threw
    | RecorderStartFailed    // the new recorder was stored, its start threw
    | Started                // the recorder is recording

  /** What processRecordedAudio does with the chunks. */
  datatype ProcessOutcome =
    | NothingRecorded
    | TooSmall
    | Sent(message: Message)

  /** The content script's recording state. */
  class VoiceRecorder {
    var audioChunks: seq<seq<Byte>>
    var isRecording: bool
    var manualStopRequested: bool
    var hasRecorder: bool
    var recorderState: RecorderState
    var hasStream: bool
    /** The data-request intervals set up so far, by creation order: true while
        the interval is still running. */
    var dataRequestIntervals: seq<bool>

    /** Every stored chunk carries data, because empty data is never appended. */
    predicate Valid()
      reads this
    {
      forall i :: 0 <= i < |audioChunks| ==> |audioChunks[i]| > 0
    }

    constructor()
      ensures Valid()
      ensures audioChunks == [] && !isRecording && !manualStopRequested
      ensures !hasRecorder && !hasStream && recorderState == Inactive && dataRequestIntervals == []
    {
      audioChunks := [];
      isRecording := false;
      manualStopRequested := false;
      hasRecorder := false;
      recorderState := Inactive;
      hasStream := false;
      dataRequestIntervals := [];
    }

    /** stopRecording: what happens at once. The result says whether the two timers
        that stop the recorder and release the stream were scheduled. */
    method StopRecording(shouldProcess: bool) returns (scheduled: bool)
      requires Valid()
      modifies this
      ensures Valid()
      ensures scheduled <==> old(hasRecorder) && old(recorderState) != Inactive
      ensures !scheduled ==> !isRecording
      ensures scheduled ==> isRecording == old(isRecording)
      ensures audioChunks == old(audioChunks) && manualStopRequested == old(manualStopRequested)
      ensures hasRecorder == old(hasRecorder) && recorderState == old(recorderState) && hasStream == old(hasStream)
      ensures dataRequestIntervals == old(dataRequestIntervals)
    {
      if !hasRecorder {
        isRecording := false;
        return false;
      }
      if recorderState == Inactive {
        isRecording := false;
        return false;
      }
      return true;
    }

    /** The first timer of stopRecording: stop the recorder if it is recording. */
    method StopRecorderTimer()
      requires Valid()
      modifies this
      ensures Valid()
      ensures recorderState == Inactive
      ensures audioChunks == old(audioChunks) && isRecording == old(isRecording)
      ensures manualStopRequested == old(manualStopRequested)
      ensures hasRecorder == old(hasRecorder) && hasStream == old(hasStream)
      ensures dataRequestIntervals == old(dataRequestIntervals)
    {
      if recorderState == RecordingState {
        recorderState := Inactive;
      }
    }

    /** The second timer of stopRecording: release the stream, clear isRecording,
        and either schedule processing or discard the chunks. */
    method ReleaseStreamTimer(shouldProcess: bool) returns (processScheduled: bool)
      requires Valid()
      modifies this
      ensures Valid()
      ensures !hasStream && !isRecording
      ensures processScheduled <==> shouldProcess && |old(audioChunks)| > 0
      ensures audioChunks == (if shouldProcess then old(audioChunks) else [])
      ensures manualStopRequested == old(manualStopRequested)
      ensures hasRecorder == old(hasRecorder) && recorderState == old(recorderState)
      ensures dataRequestIntervals == old(dataRequestIntervals)
    {
      hasStream := false;
      isRecording := false;
      processScheduled := shouldProcess && |audioChunks| > 0;
      if !shouldProcess {
        audioChunks := [];
      }
    }

    /** startRecording: a running recording is first stopped without processing,
        the chunks are reset, then the stream and the recorder are set up. */
    method StartRecording(outcome: StartOutcome)
      requires Valid()
      modifies this
      ensures Valid()
      ensures audioChunks == [] && !manualStopRequested
      ensures outcome != Started ==> !isRecording && dataRequestIntervals == old(dataRequestIntervals)
      ensures outcome == PermissionDenied ==>
                hasStream == old(hasStream) && hasRecorder == old(hasRecorder) && recorderState == old(recorderState)
      ensures outcome == RecorderCreateFailed ==>
                hasStream && hasRecorder == old(hasRecorder) && recorderState == old(recorderState)
      ensures outcome == RecorderStartFailed ==>
                hasStream && hasRecorder && recorderState == Inactive
      ensures outcome == Started ==>
                hasStream && hasRecorder && recorderState == RecordingState
                && isRecording == (old(isRecording) && (!old(hasRecorder) || old(recorderState) != Inactive))
                && dataRequestIntervals == old(dataRequestIntervals) + [true]
    {
      if isRecording && hasRecorder {
        var _ := StopRecording(false);
      }
      audioChunks := [];
      manualStopRequested := false;
      match outcome
      case PermissionDenied =>
        isRecording := false;
        audioChunks := [];
      case RecorderCreateFailed =>
        hasStream := true;
        isRecording := false;
        audioChunks := [];
      case RecorderStartFailed =>
        hasStream := true;
        hasRecorder := true;
        recorderState := Inactive;
        isRecording := false;
        audioChunks := [];
      case Started =>
        hasStream := true;
        hasRecorder := true;
        recorderState := RecordingState;
        dataRequestIntervals := dataRequestIntervals + [true];
    }

    /** One tick of the data-request interval with the given index: a running
        interval requests data while the current recorder records and no manual stop
        was asked for, and otherwise clears itself; a cleared interval never fires
        again, so it never requests data. */
    method DataRequestTick(interval: nat) returns (requested: bool)
      requires Valid() && interval < |dataRequestIntervals|
      modifies this
      ensures Valid()
      ensures requested ==> old(dataRequestIntervals[interval])
      ensures old(dataRequestIntervals[interval]) ==>
                (requested <==> hasRecorder && recorderState == RecordingState && !manualStopRequested)
      ensures dataRequestIntervals == old(dataRequestIntervals)[interval := requested]
      ensures audioChunks == old(audioChunks) && isRecording == old(isRecording)
      ensures manualStopRequested == old(manualStopRequested)
      ensures hasRecorder == old(hasRecorder) && recorderState == old(recorderState) && hasStream == old(hasStream)
    {
      if !dataRequestIntervals[interval] {
        return false;
      }
      requested := hasRecorder && recorderState == RecordingState && !manualStopRequested;
      if !requested {
        dataRequestIntervals := dataRequestIntervals[interval := false];
      }
    }

    /** The recorder's dataavailable event: only data with a size is kept. */
    method OnDataAvailable(data: seq<Byte>)
      requires Valid()
      modifies this
      ensures Valid()
      ensures audioChunks == if |data| > 0 then old(audioChunks) + [data] else old(audioChunks)
      ensures isRecording == old(isRecording) && manualStopRequested == old(manualStopRequested)
      ensures hasRecorder == old(hasRecorder) && recorderState == old(recorderState) && hasStream == old(hasStream)
      ensures dataRequestIntervals == old(dataRequestIntervals)
    {
      if |data| > 0 {
        audioChunks := audioChunks + [data];
      }
    }

    /** The recorder's start event. */
    method OnRecorderStart()
      requires Valid()
      modifies this
      ensures Valid()
      ensures isRecording
      ensures audioChunks == old(audioChunks) && manualStopRequested == old(manualStopRequested)
      ensures hasRecorder == old(hasRecorder) && recorderState == old(recorderState) && hasStream == old(hasStream)
      ensures dataRequestIntervals == old(dataRequestIntervals)
    {
      isRecording := true;
    }

    /** The recorder's stop event. */
    method OnRecorderStop()
      requires Valid()
      modifies this
      ensures Valid()
      ensures !isRecording
      ensures audioChunks == old(audioChunks) && manualStopRequested == old(manualStopRequested)
      ensures hasRecorder == old(hasRecorder) && recorderState == old(recorderState) && hasStream == old(hasStream)
      ensures dataRequestIntervals == old(dataRequestIntervals)
    {
      isRecording := false;
    }

    /** processRecordedAudio: nothing is sent without chunks or below 100 bytes;
        otherwise the whole recording is sent as one number array. The chunks are
        kept until a result arrives. */
    method ProcessRecordedAudio() returns (outcome: ProcessOutcome)
      requires Valid()
      modifies this
      ensures Valid()
      ensures audioChunks == old(audioChunks)
      ensures outcome == NothingRecorded <==> |audioChunks| == 0
      ensures outcome == TooSmall <==> |audioChunks| > 0 && TotalSize(audioChunks) < MinSendSize
      ensures outcome != NothingRecorded ==> TotalSize(audioChunks) >= |audioChunks| > 0
      ensures outcome.Sent? ==> outcome.message == VoiceNoteMessage(Concat(audioChunks))
                                && |Concat(audioChunks)| >= MinSendSize && !isRecording
      ensures !outcome.Sent? ==> isRecording == old(isRecording)
      ensures manualStopRequested == old(manualStopRequested)
      ensures hasRecorder == old(hasRecorder) && recorderState == old(recorderState) && hasStream == old(hasStream)
      ensures dataRequestIntervals == old(dataRequestIntervals)
    {
      if |audioChunks| == 0 {
        return NothingRecorded;
      }
      var audio := Concat(audioChunks);
      ConcatSize(audioChunks);
      NonEmptyChunksNonEmptyBlob(audioChunks);
      if |audio| < MinSendSize {
        return TooSmall;
      }
      outcome := Sent(VoiceNoteMessage(audio));
      isRecording := false;
    }

    /** handleProcessingResult: the addressee handed on for tagging, if any. The
        chunks are cleared only after a successful result with a truthy addressee. */
    method HandleProcessingResult(response: Option<Response>) returns (tagged: Option<Json>)
      requires Valid()
      modifies this
      ensures Valid()
      ensures tagged.Some? <==> response.Some? && response.value.Success?
                                && Get(response.value.result, Addressee).Some?
                                && !Falsy(Get(response.value.result, Addressee).value)
      ensures tagged.Some? ==> tagged == Get(response.value.result, Addressee)
      ensures audioChunks == if tagged.Some? then [] else old(audioChunks)
      ensures isRecording == old(isRecording) && manualStopRequested == old(manualStopRequested)
      ensures hasRecorder == old(hasRecorder) && recorderState == old(recorderState) && hasStream == old(hasStream)
      ensures dataRequestIntervals == old(dataRequestIntervals)
    {
      tagged := None;
      if response.None? || !response.value.Success? {
        return;
      }
      var addressee := Get(response.value.result, Addressee);
      if addressee.None? || Falsy(addressee.value) {
        return;
      }
      tagged := addressee;
      audioChunks := [];
    }
  }

  /** When the recorder's start fails, the failed recorder is the one a later stop
      sees: it is inactive, so stopping schedules nothing and clears isRecording. */
  method StartFailureThenStop(r: VoiceRecorder) returns (scheduled: bool)
    requires r.Valid()
    modifies r
    ensures !scheduled && !r.isRecording && r.audioChunks == []
  {
    r.StartRecording(RecorderStartFailed);
    scheduled := r.StopRecording(true);
  }

  /** A recording session from the first chunk to the server's answer: two chunks
      arrive, the user stops with processing, the timers fire, the audio is processed
      and the background script answers. The chunks survive until an answer with an
      addressee arrives. */
  method RecordAndSend(r: VoiceRecorder, first: seq<Byte>, second: seq<Byte>, bg: BackgroundScript, reply: FetchOutcome)
      returns (sent: ProcessOutcome, response: Option<Response>, upload: Option<Upload>)
    requires r.Valid() && |first| > 0 && |second| > 0
    modifies r, bg
    ensures sent == TooSmall || sent.Sent?
    ensures sent.Sent? ==> sent.message == VoiceNoteMessage(first + second)
    ensures sent.Sent? && Truthy(old(bg.isExtensionEnabled)) && |first + second| >= MinUploadSize ==>
              upload == Some(Upload(old(bg.serverUrl) + "/process_audio", first + second))
  {
    r.StartRecording(Started);
    r.OnRecorderStart();
    r.OnDataAvailable(first);
    r.OnDataAvailable(second);
    assert r.audioChunks == [first, second];
    assert Concat(r.audioChunks) == first + second by {
      assert r.audioChunks[..1] == [first];
      assert Concat([first]) == first by {
        assert [first][..0] == [];
      }
    }
    var scheduled := r.StopRecording(true);
    r.StopRecorderTimer();
    r.OnRecorderStop();
    var processNext := r.ReleaseStreamTimer(true);
    sent := r.ProcessRecordedAudio();
    response, upload := None, None;
    if sent.Sent? {
      response, upload := bg.OnMessage(sent.message, reply);
      VoiceNoteTransport(first + second, old(bg.serverUrl), reply);
      var _ := r.HandleProcessingResult(response);
    }
  }
}
