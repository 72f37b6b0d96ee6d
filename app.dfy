/** The App component's recording state (App.tsx, lines 5-10 and 23-87): the
    React state isRecording, volume and frequency, the three refs to the
    media stream, audio context and analyser, and the operations that start
    a recording, stop it, and compute one frame of metrics. */
module AudioAnalyzer {
  import opened Samples
  import opened Loudness
  import opened Spectrum

  datatype Option<T> = None | Some(value: T)

  /** Why getUserMedia or the audio graph set-up failed. */
  datatype MediaError = PermissionDenied | NoInputDevice | AudioSetupFailed

  /** The outcome of a host call that may reject or throw. */
  datatype Result<T> = Ok(value: T) | Err(error: MediaError)

  /** A MediaStream returned by getUserMedia. */
  datatype Stream = Stream(id: nat)

  /** The part of an AudioContext the frame reads: its sample rate in Hz. */
  datatype AudioContext = AudioContext(sampleRate: nat)

  /** An AnalyserNode, configured by its FFT size. */
  datatype Analyser = Analyser(fftSize: nat)
  {
    function FrequencyBinCount(): nat { BinCount(fftSize) }
  }

  class App {
    var isRecording: bool
    var volume: nat
    var frequency: nat
    /** mediaStreamRef.current, audioContextRef.current, analyserRef.current */
    var mediaStream: Option<Stream>
    var audioContext: Option<AudioContext>
    var analyser: Option<Analyser>
    /** Streams whose tracks have not been stopped: the microphone is on
        while this is non-empty. */
    var liveStreams: set<Stream>
    /** Messages written by console.error. */
    var errorLog: seq<MediaError>

    /** The analyser is always the one set up at App.tsx:32, the sample rate
        is positive, volume is a percentage, both readings are 0 whenever
        not recording (only a recording frame or a stop writes them), and
        while recording every ref is set and the held stream's microphone
        is on. */
    ghost predicate Valid()
      reads this
    {
      && volume <= 100
      && (!isRecording ==> volume == 0 && frequency == 0)
      && (analyser.Some? ==> analyser.value.fftSize == FftSize)
      && (audioContext.Some? ==> audioContext.value.sampleRate > 0)
      && (isRecording ==>
            && mediaStream.Some? && audioContext.Some? && analyser.Some?
            && mediaStream.value in liveStreams)
    }

    /** The first render: useState(false), useState(0), useState(0) and
        three null refs. */
    constructor ()
      ensures Valid()
      ensures !isRecording && volume == 0 && frequency == 0
      ensures mediaStream == None && audioContext == None && analyser == None
      ensures liveStreams == {} && errorLog == []
    {
      isRecording, volume, frequency := false, 0, 0;
      mediaStream, audioContext, analyser := None, None, None;
      liveStreams, errorLog := {}, [];
    }

    /** startRecording (App.tsx:23-43). `acquired` is what getUserMedia
        resolves to; `setup` is the sample rate of the new AudioContext, or
        the exception thrown while building the analyser graph. A failure is
        only logged; recording starts only when both steps succeed. A stream
        acquired before the set-up throws stays in mediaStreamRef, its
        microphone on. The metrics are never touched: the analyze() call at
        App.tsx:39 reads the isRecording of the render that started it.
        Every successful getUserMedia yields a new MediaStream, so the stream
        handed in is not one whose microphone is already on. */
    method StartRecording(acquired: Result<Stream>, setup: Result<nat>)
      requires Valid()
      requires acquired.Ok? ==> acquired.value !in liveStreams
      requires setup.Ok? ==> setup.value > 0
      modifies this
      ensures Valid()
      ensures volume == old(volume) && frequency == old(frequency)
      ensures acquired.Err? ==>
        && isRecording == old(isRecording)
        && mediaStream == old(mediaStream) && liveStreams == old(liveStreams)
        && audioContext == old(audioContext) && analyser == old(analyser)
        && errorLog == old(errorLog) + [acquired.error]
      ensures acquired.Ok? ==>
        && mediaStream == Some(acquired.value)
        && liveStreams == old(liveStreams) + {acquired.value}
      ensures acquired.Ok? && setup.Err? ==>
        && isRecording == old(isRecording)
        && audioContext == old(audioContext) && analyser == old(analyser)
        && errorLog == old(errorLog) + [setup.error]
      ensures acquired.Ok? && setup.Ok? ==>
        && isRecording
        && audioContext == Some(AudioContext(setup.value))
        && analyser == Some(Analyser(FftSize))
        && errorLog == old(errorLog)
    {
      match acquired {
        case Err(e) =>
          errorLog := errorLog + [e];
        case Ok(stream) =>
          mediaStream := Some(stream);
          liveStreams := liveStreams + {stream};
          match setup {
            case Err(e) =>
              errorLog := errorLog + [e];
            case Ok(rate) =>
              audioContext := Some(AudioContext(rate));
              analyser := Some(Analyser(FftSize));
              isRecording := true;
          }
      }
    }

    /** stopRecording (App.tsx:45-52): stop the held stream's tracks, if
        any, and reset to (false, 0, 0) whatever the state was. The refs are
        left as they are. */
    method StopRecording()
      requires Valid()
      modifies this
      ensures Valid()
      ensures !isRecording && volume == 0 && frequency == 0
      ensures !old(isRecording) ==> volume == old(volume) && frequency == old(frequency)
      ensures liveStreams ==
        if old(mediaStream).Some? then old(liveStreams) - {old(mediaStream).value}
        else old(liveStreams)
      ensures mediaStream == old(mediaStream) && audioContext == old(audioContext)
      ensures analyser == old(analyser) && errorLog == old(errorLog)
    {
      if mediaStream.Some? {
        liveStreams := liveStreams - {mediaStream.value};
      }
      isRecording := false;
      volume := 0;
      frequency := 0;
    }

    /** One call of updateMetrics (App.tsx:60-84) on the Uint8Array `data`
        of frequencyBinCount elements. `timeDomain` and `spectrum` are what
        getByteTimeDomainData and getByteFrequencyData write into it. While
        recording, volume becomes the rounded RMS percentage of the samples
        and frequency the rounded centre of the first loudest bin, which is
        never above the Nyquist frequency; otherwise nothing happens. */
    method UpdateMetrics(data: array<Byte>, timeDomain: seq<Byte>, spectrum: seq<Byte>)
      requires Valid()
      requires analyser.Some? && audioContext.Some?
      requires data.Length == analyser.value.FrequencyBinCount()
      requires |timeDomain| == data.Length && |spectrum| == data.Length
      modifies this, data
      ensures Valid()
      ensures isRecording == old(isRecording)
      ensures mediaStream == old(mediaStream) && liveStreams == old(liveStreams)
      ensures audioContext == old(audioContext) && analyser == old(analyser)
      ensures errorLog == old(errorLog)
      ensures !isRecording ==>
        volume == old(volume) && frequency == old(frequency) && data[..] == old(data[..])
      ensures isRecording ==>
        && volume == VolumePercent(timeDomain)
        && frequency == DominantHz(Scan(spectrum).index,
                                   audioContext.value.sampleRate, analyser.value.fftSize)
        && 2 * frequency <= audioContext.value.sampleRate
        && data[..] == spectrum
    {
      if !isRecording {
        return;
      }
      forall i | 0 <= i < data.Length {
        data[i] := timeDomain[i];
      }
      assert data[..] == timeDomain;
      var sumSquares := SumOfSquares(data);
      volume := VolumeFromSum(sumSquares, data.Length);
      forall i | 0 <= i < data.Length {
        data[i] := spectrum[i];
      }
      assert data[..] == spectrum;
      var maxIndex := DominantBin(data);
      var rate, fftSize := audioContext.value.sampleRate, analyser.value.fftSize;
      frequency := DominantHz(maxIndex, rate, fftSize);
      BelowNyquist(maxIndex, rate, fftSize);
    }
  }

  /** A client: a denied microphone leaves the readings at {0, 0} and logs
      the error once, and a stop while idle changes nothing visible. */
  method DeniedThenStop()
  {
    var app := new App();
    app.StartRecording(Err(PermissionDenied), Ok(48000));
    assert !app.isRecording && app.volume == 0 && app.frequency == 0;
    assert app.errorLog == [PermissionDenied];
    app.StopRecording();
    assert !app.isRecording && app.volume == 0 && app.frequency == 0;
    assert app.liveStreams == {};
  }

  /** A client: a start whose set-up throws keeps its stream live; a later
      successful start replaces the stream ref, so the stop that follows
      turns off only the second microphone and the first one stays on. */
  method FailedSetupLeaksStream()
  {
    var app := new App();
    app.StartRecording(Ok(Stream(1)), Err(AudioSetupFailed));
    assert !app.isRecording && app.liveStreams == {Stream(1)};
    app.StartRecording(Ok(Stream(2)), Ok(48000));
    assert app.isRecording && app.mediaStream == Some(Stream(2));
    app.StopRecording();
    assert !app.isRecording && app.volume == 0 && app.frequency == 0;
    assert app.liveStreams == {Stream(1)};
  }
}
