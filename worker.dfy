/** The recognition worker (`OCRThread`): one run loads the image, guards
    its size, reduces it to gray, shows it, builds the engine options, asks
    the engine for the text and for the per-token confidences, averages
    them and reports the result. Every step that fails raises, and the run
    then reports one error instead of the events that remained.
    The signals the worker emits are recorded in `trace`, the engine calls
    it makes in `engineCalls`. */
module Worker {
  import opened Results
  import opened Text
  import opened SpellCorrection
  import opened Preprocess
  import Confidence
  import EngineConfig

  /** The settings snapshot the window hands to the worker. */
  datatype Settings = Settings(
    ocrEngine: int,
    pageSegmentation: int,
    denoise: bool,
    deskew: bool,
    thresholdMethod: string,
    postProcess: bool)

  /** The record the worker reports on success. */
  datatype OcrResult = OcrResult(text: string, confidence: real, timestamp: string, settings: Settings)

  /** The worker's four signals. */
  datatype Event =
    | Progress(percent: int)
    | Preview(image: Image)
    | ResultReady(result: OcrResult)
    | Error(message: string)

  datatype EngineCall = ToStringCall(image: Image, config: string) | ToDataCall(image: Image, config: string)

  /** What the worker calls but does not own. `None` from `imread` is a file
      that could not be decoded; `Err` from the gray conversion or the engine
      is a raised exception.
      `imageToData` yields the engine's confidence column. */
  datatype Collaborators = Collaborators(
    imread: string -> Option<Image>,
    toGray: Image -> Result<Image>,
    imageToString: (Image, string) -> Result<string>,
    imageToData: (Image, string) -> Result<seq<int>>)

  /** The signals and engine calls of one run. */
  datatype RunLog = RunLog(events: seq<Event>, calls: seq<EngineCall>)

  const LoadFailed: string := "Failed to load image"

  /** `height, width = processed_image.shape`: unpacking fails unless the
      image is two-dimensional. */
  function UnpackHeightWidth(image: Image): (r: Result<(nat, nat)>)
    ensures r.Ok? <==> |image.shape| == 2
    ensures r.Ok? ==> r.value.0 * r.value.1 == ElementCount(image.shape)
  {
    if |image.shape| == 2 then
      assert image.shape[1..][1..] == [];
      assert ElementCount(image.shape[1..]) == image.shape[1] * ElementCount([]);
      Ok((image.shape[0], image.shape[1]))
    else if |image.shape| > 2 then Err("too many values to unpack (expected 2)")
    else Err("not enough values to unpack (expected 2, got " + EngineConfig.DecimalString(|image.shape|) + ")")
  }

  /** What one run emits and calls, step by step. The engine is asked at
      most twice, and only about an image that loaded and passed the size
      guard. */
  function RunSpec(path: string, settings: Settings, io: Collaborators, now: string): (r: RunLog)
    ensures |r.calls| <= 2
    ensures r.calls != [] ==>
      io.imread(path).Some? && ElementCount(io.imread(path).value.shape) <= MaxElements
  {
    match io.imread(path)
    case None => RunLog([Error(LoadFailed)], [])
    case Some(image) =>
      match PreprocessImage(image, io.toGray)
      case Err(msg) => RunLog([Progress(10), Error(msg)], [])
      case Ok(gray) =>
        if UnpackHeightWidth(gray).Err? then
          RunLog([Progress(10), Error(UnpackHeightWidth(gray).message)], [])
        else
          var rec := RecognitionSpec(gray, settings, io, now);
          RunLog([Progress(10), Preview(gray)] + rec.events, rec.calls)
  }

  /** The part of a run after the preview: Progress(40), the option string,
      the two engine calls and the average. */
  function RecognitionSpec(gray: Image, settings: Settings, io: Collaborators, now: string): (r: RunLog)
    ensures |r.calls| <= 2
  {
    match EngineConfig.ConfigString(settings.ocrEngine, settings.pageSegmentation)
    case Err(msg) => RunLog([Progress(40), Error(msg)], [])
    case Ok(cfg) =>
      match io.imageToString(gray, cfg)
      case Err(msg) => RunLog([Progress(40), Error(msg)], [ToStringCall(gray, cfg)])
      case Ok(text) =>
        var calls := [ToStringCall(gray, cfg), ToDataCall(gray, cfg)];
        match io.imageToData(gray, cfg)
        case Err(msg) => RunLog([Progress(40), Progress(70), Error(msg)], calls)
        case Ok(confs) =>
          var result := OcrResult(text, Confidence.MeanConfidence(confs), now, settings);
          RunLog([Progress(40), Progress(70), ResultReady(result), Progress(100)], calls)
  }

  predicate Terminal(e: Event) {
    e.ResultReady? || e.Error?
  }

  /** Exactly one of Result/Error is emitted. */
  ghost predicate OneTerminal(events: seq<Event>) {
    exists i :: 0 <= i < |events| && Terminal(events[i]) &&
      forall j :: 0 <= j < |events| && Terminal(events[j]) ==> j == i
  }

  /** Progress never goes backwards. */
  ghost predicate ProgressMonotone(events: seq<Event>) {
    forall i, j :: 0 <= i < j < |events| && events[i].Progress? && events[j].Progress? ==>
      events[i].percent <= events[j].percent
  }

  /** At most one preview, and before any result. */
  ghost predicate PreviewOnceBeforeResult(events: seq<Event>) {
    && (forall i, j :: 0 <= i < |events| && 0 <= j < |events| && events[i].Preview? && events[j].Preview? ==> i == j)
    && (forall i, j :: 0 <= i < |events| && 0 <= j < |events| && events[i].Preview? && events[j].ResultReady? ==> i < j)
  }

  /** An error is the last signal; a result is followed only by Progress(100). */
  ghost predicate NothingAfterTerminal(events: seq<Event>) {
    && (forall i :: 0 <= i < |events| && events[i].Error? ==> i == |events| - 1)
    && (forall i :: 0 <= i < |events| && events[i].ResultReady? ==> i == |events| - 2 && events[i + 1] == Progress(100))
  }

  /** The ordering guarantees of a run's signals. */
  ghost predicate WellOrdered(events: seq<Event>) {
    OneTerminal(events) && ProgressMonotone(events) && PreviewOnceBeforeResult(events) && NothingAfterTerminal(events)
  }

  class OcrThread {
    const imagePath: string
    const settings: Settings
    const dictionary: Lexicon
    /** The signals emitted so far, in order. */
    var trace: seq<Event>
    /** The engine calls made so far, in order. */
    var engineCalls: seq<EngineCall>

    constructor (imagePath: string, settings: Settings, dictionary: Lexicon)
      ensures this.imagePath == imagePath && this.settings == settings && this.dictionary == dictionary
      ensures trace == [] && engineCalls == []
    {
      this.imagePath := imagePath;
      this.settings := settings;
      this.dictionary := dictionary;
      trace := [];
      engineCalls := [];
    }

    method Emit(e: Event)
      modifies this`trace
      ensures trace == old(trace) + [e]
    {
      trace := trace + [e];
    }

    method ImageToString(io: Collaborators, image: Image, config: string) returns (r: Result<string>)
      modifies this`engineCalls
      ensures engineCalls == old(engineCalls) + [ToStringCall(image, config)]
      ensures r == io.imageToString(image, config)
    {
      engineCalls := engineCalls + [ToStringCall(image, config)];
      r := io.imageToString(image, config);
    }

    method ImageToData(io: Collaborators, image: Image, config: string) returns (r: Result<seq<int>>)
      modifies this`engineCalls
      ensures engineCalls == old(engineCalls) + [ToDataCall(image, config)]
      ensures r == io.imageToData(image, config)
    {
      engineCalls := engineCalls + [ToDataCall(image, config)];
      r := io.imageToData(image, config);
    }

    /** `OCRThread.run`: it appends the signals of `RunSpec` to the trace
        and its engine calls to the call log. */
    method Run(io: Collaborators, now: string)
      modifies this
      ensures trace == old(trace) + RunSpec(imagePath, settings, io, now).events
      ensures engineCalls == old(engineCalls) + RunSpec(imagePath, settings, io, now).calls
    {
      var loaded := io.imread(imagePath);
      if loaded.None? {
        Emit(Error(LoadFailed));
        return;
      }
      var image := loaded.value;
      Emit(Progress(10));
      assert trace == old(trace) + [Progress(10)];

      var processed := PreprocessImage(image, io.toGray);
      if processed.Err? {
        Emit(Error(processed.message));
        return;
      }
      var gray := processed.value;
      var dims := UnpackHeightWidth(gray);
      if dims.Err? {
        Emit(Error(dims.message));
        return;
      }
      Emit(Preview(gray));
      assert trace == old(trace) + [Progress(10), Preview(gray)];
      Recognize(io, gray, now);
    }

    /** The rest of the run once the preview is shown. */
    method Recognize(io: Collaborators, gray: Image, now: string)
      modifies this
      ensures trace == old(trace) + RecognitionSpec(gray, settings, io, now).events
      ensures engineCalls == old(engineCalls) + RecognitionSpec(gray, settings, io, now).calls
    {
      Emit(Progress(40));
      assert trace == old(trace) + [Progress(40)];
      var config := EngineConfig.ConfigString(settings.ocrEngine, settings.pageSegmentation);
      if config.Err? {
        Emit(Error(config.message));
        return;
      }
      var text := ImageToString(io, gray, config.value);
      if text.Err? {
        Emit(Error(text.message));
        return;
      }
      Emit(Progress(70));
      assert trace == old(trace) + [Progress(40), Progress(70)];

      var data := ImageToData(io, gray, config.value);
      if data.Err? {
        Emit(Error(data.message));
        return;
      }
      var confidence := Confidence.MeanConfidence(data.value);
      var result := OcrResult(text.value, confidence, now, settings);
      Emit(ResultReady(result));
      Emit(Progress(100));
    }

    /** `OCRThread.post_process_text`: the loops over lines and tokens
        compute the corrected text. */
    method PostProcessText(text: string) returns (processed: string)
      ensures processed == PostProcessed(dictionary, text)
    {
      var lines := Split(text, IsNewline);
      var processedLines: seq<string> := [];
      for i := 0 to |lines|
        invariant |processedLines| == i
        invariant forall n :: 0 <= n < i ==> processedLines[n] == CorrectLine(dictionary, lines[n])
      {
        var words := Words(lines[i]);
        var processedWords: seq<string> := [];
        for j := 0 to |words|
          invariant |processedWords| == j
          invariant forall k :: 0 <= k < j ==> processedWords[k] == CorrectWord(dictionary, words[k])
        {
          var word := words[j];
          ghost var before := processedWords;
          if |word| > 2 {
            if !dictionary.check(word) {
              var suggestions := dictionary.suggest(word);
              if suggestions != [] {
                assert CorrectWord(dictionary, word) == suggestions[0];
                processedWords := processedWords + [suggestions[0]];
                assert forall k :: 0 <= k < j ==> processedWords[k] == before[k];
                continue;
              }
            }
          }
          assert CorrectWord(dictionary, word) == word;
          processedWords := processedWords + [word];
          assert forall k :: 0 <= k < j ==> processedWords[k] == before[k];
        }
        assert processedWords == CorrectWords(dictionary, words);
        assert Join(processedWords, ' ') == CorrectLine(dictionary, lines[i]);
        processedLines := processedLines + [Join(processedWords, ' ')];
      }
      assert processedLines == seq(|lines|, i requires 0 <= i < |lines| => CorrectLine(dictionary, lines[i]));
      processed := Join(processedLines, '\n');
    }
  }

  lemma ErrorAloneWellOrdered(msg: string)
    ensures WellOrdered([Error(msg)])
  {
    var events := [Error(msg)];
    assert OneTerminal(events) by {
      assert Terminal(events[0]);
    }
    assert ProgressMonotone(events);
    assert PreviewOnceBeforeResult(events);
    assert NothingAfterTerminal(events);
  }

  lemma ErrorAfterLoadWellOrdered(msg: string)
    ensures WellOrdered([Progress(10), Error(msg)])
  {
    var events := [Progress(10), Error(msg)];
    assert OneTerminal(events) by {
      assert Terminal(events[1]);
    }
    assert ProgressMonotone(events);
    assert PreviewOnceBeforeResult(events);
    assert NothingAfterTerminal(events);
  }

  lemma ErrorAfterPreviewWellOrdered(gray: Image, msg: string)
    ensures WellOrdered([Progress(10), Preview(gray), Progress(40), Error(msg)])
  {
    var events := [Progress(10), Preview(gray), Progress(40), Error(msg)];
    assert OneTerminal(events) by {
      assert Terminal(events[3]);
      forall j | 0 <= j < |events| && Terminal(events[j]) ensures j == 3 {
        assert j >= 3;
      }
    }
    assert ProgressMonotone(events) by {
      forall i, j | 0 <= i < j < |events| && events[i].Progress? && events[j].Progress?
        ensures events[i].percent <= events[j].percent
      {
        assert i == 0 && j == 2;
      }
    }
    assert PreviewOnceBeforeResult(events);
    assert NothingAfterTerminal(events);
  }

  lemma ErrorAfterRecognitionWellOrdered(gray: Image, msg: string)
    ensures WellOrdered([Progress(10), Preview(gray), Progress(40), Progress(70), Error(msg)])
  {
    var events := [Progress(10), Preview(gray), Progress(40), Progress(70), Error(msg)];
    assert OneTerminal(events) by {
      assert Terminal(events[4]);
      forall j | 0 <= j < |events| && Terminal(events[j]) ensures j == 4 {
        assert j >= 4;
      }
    }
    assert ProgressMonotone(events) by {
      forall i, j | 0 <= i < j < |events| && events[i].Progress? && events[j].Progress?
        ensures events[i].percent <= events[j].percent
      {
        assert i == 0 || i == 2;
        assert j == 2 || j == 3;
      }
    }
    assert PreviewOnceBeforeResult(events);
    assert NothingAfterTerminal(events);
  }

  lemma SuccessWellOrdered(gray: Image, result: OcrResult)
    ensures WellOrdered([Progress(10), Preview(gray), Progress(40), Progress(70), ResultReady(result), Progress(100)])
  {
    var events := [Progress(10), Preview(gray), Progress(40), Progress(70), ResultReady(result), Progress(100)];
    assert OneTerminal(events) by {
      assert Terminal(events[4]);
      forall j | 0 <= j < |events| && Terminal(events[j]) ensures j == 4 {
        assert j >= 4;
      }
    }
    assert ProgressMonotone(events) by {
      forall i, j | 0 <= i < j < |events| && events[i].Progress? && events[j].Progress?
        ensures events[i].percent <= events[j].percent
      {
        assert i == 0 || i == 2 || i == 3 || i == 5;
        assert j == 2 || j == 3 || j == 5;
      }
    }
    assert PreviewOnceBeforeResult(events);
    assert NothingAfterTerminal(events);
  }

  /** Every run, whatever its collaborators do, emits its signals in the
      order the window relies on. */
  lemma RunIsWellOrdered(path: string, settings: Settings, io: Collaborators, now: string)
    ensures WellOrdered(RunSpec(path, settings, io, now).events)
  {
    match io.imread(path)
    case None =>
      ErrorAloneWellOrdered(LoadFailed);
    case Some(image) =>
      match PreprocessImage(image, io.toGray)
      case Err(msg) =>
        ErrorAfterLoadWellOrdered(msg);
      case Ok(gray) =>
        if UnpackHeightWidth(gray).Err? {
          ErrorAfterLoadWellOrdered(UnpackHeightWidth(gray).message);
        } else {
          RecognitionIsWellOrdered(gray, settings, io, now);
        }
  }

  lemma RecognitionIsWellOrdered(gray: Image, settings: Settings, io: Collaborators, now: string)
    ensures WellOrdered([Progress(10), Preview(gray)] + RecognitionSpec(gray, settings, io, now).events)
  {
    var shown := [Progress(10), Preview(gray)];
    match EngineConfig.ConfigString(settings.ocrEngine, settings.pageSegmentation)
    case Err(msg) =>
      ErrorAfterPreviewWellOrdered(gray, msg);
      assert shown + [Progress(40), Error(msg)] == [Progress(10), Preview(gray), Progress(40), Error(msg)];
    case Ok(cfg) =>
      match io.imageToString(gray, cfg)
      case Err(msg) =>
        ErrorAfterPreviewWellOrdered(gray, msg);
        assert shown + [Progress(40), Error(msg)] == [Progress(10), Preview(gray), Progress(40), Error(msg)];
      case Ok(text) =>
        match io.imageToData(gray, cfg)
        case Err(msg) =>
          ErrorAfterRecognitionWellOrdered(gray, msg);
          assert shown + [Progress(40), Progress(70), Error(msg)]
            == [Progress(10), Preview(gray), Progress(40), Progress(70), Error(msg)];
        case Ok(confs) =>
          var result := OcrResult(text, Confidence.MeanConfidence(confs), now, settings);
          SuccessWellOrdered(gray, result);
          assert shown + [Progress(40), Progress(70), ResultReady(result), Progress(100)]
            == [Progress(10), Preview(gray), Progress(40), Progress(70), ResultReady(result), Progress(100)];
  }

  /** A file that cannot be decoded yields the error alone, with no engine call. */
  lemma RunLoadFailure(path: string, settings: Settings, io: Collaborators, now: string)
    requires io.imread(path).None?
    ensures RunSpec(path, settings, io, now) == RunLog([Error(LoadFailed)], [])
  {
  }

  /** A colour image whose conversion raises yields Progress(10) and the
      conversion's own error, with no preview and no engine call. */
  lemma RunConversionFails(path: string, settings: Settings, io: Collaborators, now: string)
    requires io.imread(path).Some?
    requires var image := io.imread(path).value;
             |image.shape| == 3 && ElementCount(image.shape) <= MaxElements && io.toGray(image).Err?
    ensures RunSpec(path, settings, io, now)
      == RunLog([Progress(10), Error(io.toGray(io.imread(path).value).message)], [])
  {
  }

  /** An image over the size bound yields Progress(10) and the error, and
      the engine is never called. */
  lemma RunTooLarge(path: string, settings: Settings, io: Collaborators, now: string)
    requires io.imread(path).Some? && ElementCount(io.imread(path).value.shape) > MaxElements
    ensures RunSpec(path, settings, io, now) == RunLog([Progress(10), Error(TooLarge)], [])
  {
  }

  /** The engine is called only on an image that passed the size guard,
      and every call uses the preprocessed image and the one option string
      built from the settings. */
  lemma EngineCallsAfterGuard(path: string, settings: Settings, io: Collaborators, now: string)
    ensures var calls := RunSpec(path, settings, io, now).calls;
            calls != [] ==>
              && io.imread(path).Some?
              && ElementCount(io.imread(path).value.shape) <= MaxElements
              && var gray := PreprocessImage(io.imread(path).value, io.toGray).value;
                 var cfg := EngineConfig.ConfigString(settings.ocrEngine, settings.pageSegmentation);
                 && cfg.Ok?
                 && calls[0] == ToStringCall(gray, cfg.value)
                 && |calls| <= 2
                 && (|calls| == 2 ==> calls[1] == ToDataCall(gray, cfg.value))
  {
  }

  /** All stages of a run succeed. */
  ghost predicate StagesSucceed(path: string, settings: Settings, io: Collaborators) {
    && io.imread(path).Some?
    && var processed := PreprocessImage(io.imread(path).value, io.toGray);
       && processed.Ok?
       && UnpackHeightWidth(processed.value).Ok?
       && var cfg := EngineConfig.ConfigString(settings.ocrEngine, settings.pageSegmentation);
          && cfg.Ok?
          && io.imageToString(processed.value, cfg.value).Ok?
          && io.imageToData(processed.value, cfg.value).Ok?
  }

  /** A successful run emits the six milestones in order; its result holds
      the engine's text as returned (no spell correction is applied, whatever
      the post-processing setting), the mean of the non-sentinel
      confidences, and the settings unchanged. */
  lemma RunSuccess(path: string, settings: Settings, io: Collaborators, now: string)
    requires StagesSucceed(path, settings, io)
    ensures var gray := PreprocessImage(io.imread(path).value, io.toGray).value;
            var cfg := EngineConfig.ConfigString(settings.ocrEngine, settings.pageSegmentation).value;
            var text := io.imageToString(gray, cfg).value;
            var confs := io.imageToData(gray, cfg).value;
            var result := OcrResult(text, Confidence.MeanConfidence(confs), now, settings);
            RunSpec(path, settings, io, now) == RunLog(
              [Progress(10), Preview(gray), Progress(40), Progress(70), ResultReady(result), Progress(100)],
              [ToStringCall(gray, cfg), ToDataCall(gray, cfg)])
  {
  }

  /** A run in which some stage fails ends with an error and reports no result. */
  lemma RunFailure(path: string, settings: Settings, io: Collaborators, now: string)
    requires !StagesSucceed(path, settings, io)
    ensures var events := RunSpec(path, settings, io, now).events;
            && events[|events| - 1].Error?
            && forall i :: 0 <= i < |events| ==> !events[i].ResultReady?
  {
  }
}
