/** The translator page's controller: its session state and the handlers that
    change it, one method per user action, recognition callback or timer. */
module Controller {
  import opened Strings
  import DebugLog
  import Translation
  import Browser
  import opened Results

  /** The alert boxes the page can raise. */
  datatype Alert =
    | RecognitionUnavailable      // Start pressed without a recognition object
    | MicrophoneRequired          // the microphone permission request was rejected
    | StartFailed(error: string)  // the recognition object's start() threw
    | MicrophoneDenied            // recognition error "not-allowed"
    | NetworkFailure              // recognition error "network"
    | FirefoxRecognitionDisabled  // recognition error "service-not-allowed" on Firefox
    | ServiceNotAllowed           // recognition error "service-not-allowed" elsewhere

  /** The alert `onerror` raises for an error code, given the detected browser family. */
  function ErrorAlert(code: string, family: Browser.Family): (r: Option<Alert>)
    ensures r.Some? <==> code == "not-allowed" || code == "network" || code == "service-not-allowed"
    ensures r == Some(MicrophoneDenied) <==> code == "not-allowed"
    ensures r == Some(NetworkFailure) <==> code == "network"
    ensures r == Some(FirefoxRecognitionDisabled) <==>
      code == "service-not-allowed" && family == Browser.Firefox
    ensures r == Some(ServiceNotAllowed) <==>
      code == "service-not-allowed" && family != Browser.Firefox
  {
    if code == "not-allowed" then Some(MicrophoneDenied)
    else if code == "network" then Some(NetworkFailure)
    else if code == "service-not-allowed" then
      (if family == Browser.Firefox then Some(FirefoxRecognitionDisabled) else Some(ServiceNotAllowed))
    else None
  }

  /** What the environment offers when the page looks for a speech-recognition constructor. */
  datatype Facility =
    | Missing      // no SpeechRecognition, webkitSpeechRecognition or mozSpeechRecognition
    | Throws       // a constructor exists but constructing or configuring the object threw
    | Constructed  // the recognition object was built and its callbacks installed

  // Debug log messages of the start sequence.
  const StartClicked := "Start listening button clicked"
  const NoRecognition := "ERROR: No recognition object available"
  const AlreadyListening := "Already listening, ignoring click"
  const RequestingPermission := "Requesting microphone permission..."
  const PermissionGrantedMessage := "Microphone permission granted"
  const StartBeepPlayed := "Start beep played"
  const StartingRecognition := "Starting speech recognition..."

  /** The line logged after trying the start beep. */
  function BeepMessage(beepError: Option<string>): string
  {
    match beepError
    case None => StartBeepPlayed
    case Some(e) => "Beep error (non-critical): " + e
  }

  /** The session state of the translator page. Asynchronous work is kept as
      explicit pending steps: permission requests awaiting an answer, 200 ms
      start timers, and 1500 ms translation timers with the text each carries. */
  class Session {
    var isListening: bool
    var transcript: string
    var translation: string
    var isTranslating: bool
    var interimTranscript: string
    var isSupported: bool
    var browserType: Browser.Family
    var debugInfo: seq<string>
    /** Whether `recognitionRef.current` holds a recognition object. */
    var hasRecognition: bool
    /** Microphone permission requests that have not been answered yet. */
    var permissionRequests: nat
    /** Start timers set and not yet fired. */
    var startTimers: nat
    /** The texts of the translation timers set and not yet fired, oldest first. */
    var translationTimers: seq<string>

    /** The log stays within its capacity, and "translating" is shown only while
        some translation timer is still pending. */
    ghost predicate Valid()
      reads this
    {
      |debugInfo| <= DebugLog.Capacity && (isTranslating ==> translationTimers != [])
    }

    /** The state at page mount. */
    constructor ()
      ensures Valid()
      ensures !isListening && !isTranslating && isSupported && !hasRecognition
      ensures transcript == "" && translation == "" && interimTranscript == ""
      ensures browserType == Browser.Unknown && debugInfo == []
      ensures permissionRequests == 0 && startTimers == 0 && translationTimers == []
    {
      isListening, isTranslating, isSupported, hasRecognition := false, false, true, false;
      transcript, translation, interimTranscript := "", "", "";
      browserType, debugInfo := Browser.Unknown, [];
      permissionRequests, startTimers, translationTimers := 0, 0, [];
    }

    /** `addDebugInfo`: appends one stamped line, keeping the four newest old ones. */
    method Log(stamp: string, message: string)
      requires Valid()
      modifies this`debugInfo
      ensures Valid()
      ensures debugInfo == DebugLog.Append(old(debugInfo), DebugLog.Entry(stamp, message))
    {
      debugInfo := DebugLog.Append(debugInfo, DebugLog.Entry(stamp, message));
    }

    /** The "Clear Debug" button. */
    method ClearDebug()
      requires Valid()
      modifies this`debugInfo
      ensures Valid() && debugInfo == []
    {
      debugInfo := [];
    }

    /** The mount effect: classifies the browser and looks for a recognition facility. */
    method Detect(userAgent: string, facility: Facility)
      requires Valid()
      modifies this`browserType, this`isSupported, this`hasRecognition
      ensures Valid()
      ensures browserType == Browser.Classify(userAgent)
      ensures isSupported <==> facility == Constructed
      ensures hasRecognition <==> old(hasRecognition) || facility == Constructed
    {
      browserType := Browser.Classify(userAgent);
      match facility
      case Constructed =>
        hasRecognition := true;
        isSupported := true;
      case Throws =>
        isSupported := false;
      case Missing =>
        isSupported := false;
    }

    /** `startListening` up to the permission request. Without a recognition
        object it only logs and alerts; while listening it only logs; otherwise
        it logs and asks for the microphone. Each log line takes the time at
        which it is written: `firstStamp` for the first, `secondStamp` for the second. */
    method RequestStart(firstStamp: string, secondStamp: string) returns (alert: Option<Alert>)
      requires Valid()
      modifies this`debugInfo, this`permissionRequests
      ensures Valid()
      ensures !hasRecognition ==>
        && alert == Some(RecognitionUnavailable)
        && permissionRequests == old(permissionRequests)
        && debugInfo == DebugLog.Append(DebugLog.Append(old(debugInfo), DebugLog.Entry(firstStamp, StartClicked)), DebugLog.Entry(secondStamp, NoRecognition))
      ensures hasRecognition && isListening ==>
        && alert == None
        && permissionRequests == old(permissionRequests)
        && debugInfo == DebugLog.Append(DebugLog.Append(old(debugInfo), DebugLog.Entry(firstStamp, StartClicked)), DebugLog.Entry(secondStamp, AlreadyListening))
      ensures hasRecognition && !isListening ==>
        && alert == None
        && permissionRequests == old(permissionRequests) + 1
        && debugInfo == DebugLog.Append(DebugLog.Append(old(debugInfo), DebugLog.Entry(firstStamp, StartClicked)), DebugLog.Entry(secondStamp, RequestingPermission))
    {
      Log(firstStamp, StartClicked);
      alert := None;
      var second;
      if !hasRecognition {
        second := NoRecognition;
        alert := Some(RecognitionUnavailable);
      } else if isListening {
        second := AlreadyListening;
      } else {
        second := RequestingPermission;
        permissionRequests := permissionRequests + 1;
      }
      Log(secondStamp, second);
    }

    /** The permission request resolves: the previous results are cleared, the
        start beep is tried and a start timer is set. The grant is logged at
        `firstStamp`, the beep outcome at `secondStamp`. */
    method PermissionGranted(firstStamp: string, secondStamp: string, beepError: Option<string>)
      requires Valid() && permissionRequests > 0
      modifies this`debugInfo, this`permissionRequests, this`transcript, this`translation,
        this`interimTranscript, this`startTimers
      ensures Valid()
      ensures transcript == "" && translation == "" && interimTranscript == ""
      ensures permissionRequests == old(permissionRequests) - 1
      ensures startTimers == old(startTimers) + 1
      ensures debugInfo == DebugLog.Append(DebugLog.Append(old(debugInfo), DebugLog.Entry(firstStamp, PermissionGrantedMessage)), DebugLog.Entry(secondStamp, BeepMessage(beepError)))
    {
      permissionRequests := permissionRequests - 1;
      Log(firstStamp, PermissionGrantedMessage);
      transcript, translation, interimTranscript := "", "", "";
      Log(secondStamp, BeepMessage(beepError));
      startTimers := startTimers + 1;
    }

    /** The permission request is rejected: nothing is cleared and no start is scheduled. */
    method PermissionDenied(stamp: string, error: string) returns (alert: Option<Alert>)
      requires Valid() && permissionRequests > 0
      modifies this`debugInfo, this`permissionRequests
      ensures Valid()
      ensures alert == Some(MicrophoneRequired)
      ensures permissionRequests == old(permissionRequests) - 1
      ensures debugInfo == DebugLog.Append(old(debugInfo), DebugLog.Entry(stamp, "Microphone access error: " + error))
    {
      permissionRequests := permissionRequests - 1;
      Log(stamp, "Microphone access error: " + error);
      alert := Some(MicrophoneRequired);
    }

    /** A start timer fires and calls the recognition object's start(); `startError`
        is what that call threw, if anything. The attempt is logged at `firstStamp`,
        a failure at `secondStamp`. */
    method StartTimerFires(firstStamp: string, secondStamp: string, startError: Option<string>) returns (alert: Option<Alert>)
      requires Valid() && startTimers > 0
      modifies this`debugInfo, this`startTimers
      ensures Valid()
      ensures startTimers == old(startTimers) - 1
      ensures startError.None? ==>
        && alert == None
        && debugInfo == DebugLog.Append(old(debugInfo), DebugLog.Entry(firstStamp, StartingRecognition))
      ensures startError.Some? ==>
        && alert == Some(StartFailed(startError.value))
        && debugInfo == DebugLog.Append(DebugLog.Append(old(debugInfo), DebugLog.Entry(firstStamp, StartingRecognition)), DebugLog.Entry(secondStamp, "Error starting recognition: " + startError.value))
    {
      startTimers := startTimers - 1;
      Log(firstStamp, StartingRecognition);
      alert := None;
      if startError.Some? {
        var e := startError.value;
        Log(secondStamp, "Error starting recognition: " + e);
        alert := Some(StartFailed(e));
      }
    }

    /** `onstart`. */
    method OnStart()
      requires Valid()
      modifies this`isListening
      ensures Valid() && isListening
    {
      isListening := true;
    }

    /** `handleTranslation`: shows "translating" and sets a timer carrying `text`. */
    method RequestTranslation(text: string)
      requires Valid()
      modifies this`isTranslating, this`translationTimers
      ensures Valid()
      ensures isTranslating && translationTimers == old(translationTimers) + [text]
    {
      isTranslating := true;
      translationTimers := translationTimers + [text];
    }

    /** `onresult`: the interim text is replaced by the batch's interim segments;
        the batch's final text, when non-empty, is appended to the transcript and
        sent for translation exactly once. */
    method OnResult(b: Batch)
      requires Valid()
      modifies this`transcript, this`interimTranscript, this`isTranslating, this`translationTimers
      ensures Valid()
      ensures interimTranscript == Joined(Fresh(b), false)
      ensures transcript == old(transcript) + Joined(Fresh(b), true)
      ensures Joined(Fresh(b), true) != "" ==>
        isTranslating && translationTimers == old(translationTimers) + [Joined(Fresh(b), true)]
      ensures Joined(Fresh(b), true) == "" ==>
        isTranslating == old(isTranslating) && translationTimers == old(translationTimers)
    {
      var finalText, interimText := ScanBatch(b);
      interimTranscript := interimText;
      if finalText != "" {
        transcript := transcript + finalText;
        RequestTranslation(finalText);
      }
    }

    /** The translation timer at position `k` fires: its text is looked up in the
        template table for `language`. Timers may fire in any order. */
    method TranslationTimerFires(k: nat, language: string)
      requires Valid() && k < |translationTimers|
      modifies this`translation, this`isTranslating, this`translationTimers
      ensures Valid()
      ensures translation == Translation.Translate(language, old(translationTimers)[k])
      ensures !isTranslating
      ensures translationTimers == old(translationTimers)[..k] + old(translationTimers)[k + 1..]
    {
      translation := Translation.Translate(language, translationTimers[k]);
      isTranslating := false;
      translationTimers := translationTimers[..k] + translationTimers[k + 1..];
    }

    /** `onerror`: always stops listening; the alert depends on the code and the browser. */
    method OnError(code: string) returns (alert: Option<Alert>)
      requires Valid()
      modifies this`isListening
      ensures Valid() && !isListening
      ensures alert == ErrorAlert(code, browserType)
    {
      isListening := false;
      alert := ErrorAlert(code, browserType);
    }

    /** `onend`: stops listening and drops the interim text. */
    method OnEnd()
      requires Valid()
      modifies this`isListening, this`interimTranscript
      ensures Valid() && !isListening && interimTranscript == ""
    {
      isListening := false;
      interimTranscript := "";
    }

    /** `stopListening`: plays the stop beep and calls the recognition object's
        stop() only when there is one and the page is listening. It changes no
        state itself; listening ends when `onend` arrives. */
    method StopListening() returns (stopCalled: bool)
      ensures stopCalled <==> hasRecognition && isListening
    {
      stopCalled := hasRecognition && isListening;
    }

    /** `clearAll`: empties the results and stops listening whatever the prior
        state; stop() is called on the recognition object only if it was listening.
        Pending translation timers are not cancelled. */
    method ClearAll() returns (stopCalled: bool)
      requires Valid()
      modifies this`transcript, this`translation, this`interimTranscript, this`isTranslating, this`isListening
      ensures Valid()
      ensures transcript == "" && translation == "" && interimTranscript == ""
      ensures !isTranslating && !isListening
      ensures stopCalled <==> hasRecognition && old(isListening)
    {
      transcript, translation, interimTranscript := "", "", "";
      isTranslating := false;
      stopCalled := hasRecognition && isListening;
      isListening := false;
    }
  }

  /** A series of `onresult` events delivered to one session, first to last: the
      transcript ends with every final segment delivered (which is what
      `Accumulated` computes), the translation requests are exactly those
      `Requests` lists, and the interim text is the last event's. */
  method DeliverAll(s: Session, batches: seq<Batch>)
    requires s.Valid()
    modifies s`transcript, s`interimTranscript, s`isTranslating, s`translationTimers
    ensures s.Valid()
    ensures s.transcript == old(s.transcript) + Joined(Delivered(batches), true)
    ensures s.transcript == Accumulated(old(s.transcript), batches)
    ensures s.translationTimers == old(s.translationTimers) + Requests(batches)
    ensures batches != [] ==> s.interimTranscript == Joined(Fresh(batches[|batches| - 1]), false)
    ensures batches == [] ==> s.interimTranscript == old(s.interimTranscript)
    ensures s.isTranslating <==> old(s.isTranslating) || Requests(batches) != []
  {
    ghost var transcript0, timers0, translating0 := s.transcript, s.translationTimers, s.isTranslating;
    ghost var done: seq<Batch> := [];
    var i := 0;
    while i < |batches|
      invariant 0 <= i <= |batches| && done == batches[..i]
      invariant s.Valid()
      invariant s.transcript == transcript0 + Joined(Delivered(done), true)
      invariant s.translationTimers == timers0 + Requests(done)
      invariant s.isTranslating <==> translating0 || Requests(done) != []
      invariant i == 0 ==> s.interimTranscript == old(s.interimTranscript)
      invariant i > 0 ==> s.interimTranscript == Joined(Fresh(batches[i - 1]), false)
    {
      var b := batches[i];
      DeliverStep(transcript0, done, b);
      RequestStep(timers0, done, b);
      s.OnResult(b);
      PrefixGrows(batches, i);
      done := done + [b];
      i := i + 1;
    }
    assert done == batches;
    AccumulatedIsFinalText(transcript0, batches);
  }

  /** One more event appends its final text to the transcript built from the events before it. */
  lemma DeliverStep(transcript: string, done: seq<Batch>, b: Batch)
    ensures transcript + Joined(Delivered(done + [b]), true)
      == (transcript + Joined(Delivered(done), true)) + Joined(Fresh(b), true)
  {
    assert (done + [b])[..|done|] == done;
    JoinedAppend(Delivered(done), Fresh(b), true);
    var before, added := Joined(Delivered(done), true), Joined(Fresh(b), true);
    assert (transcript + before) + added == transcript + (before + added);
  }

  /** One more event adds its final text as a request after those of the events
      before it, when that text is non-empty. */
  lemma RequestStep(timers: seq<string>, done: seq<Batch>, b: Batch)
    ensures timers + Requests(done + [b]) == (timers + Requests(done))
      + (if Joined(Fresh(b), true) != "" then [Joined(Fresh(b), true)] else [])
    ensures Requests(done + [b]) != [] <==> Requests(done) != [] || Joined(Fresh(b), true) != ""
  {
  }

  /** A prefix one longer is the shorter prefix and the next element. */
  lemma PrefixGrows<T>(s: seq<T>, i: nat)
    requires i < |s|
    ensures s[..i + 1] == s[..i] + [s[i]]
  {
  }
}
