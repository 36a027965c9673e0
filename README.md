# Speech translator page: a Dafny model of its controller

This project models the logic of the interactive translator page
(`app/translator/page.tsx`). The page captures speech with the browser's speech-recognition
object. It appends finalised text to a transcript and shows interim text as it arrives.
For each finalised chunk it produces a canned "translation" into one of eight Indian
languages after a simulated delay. It also keeps a five-line diagnostic log and classifies
the browser from its user-agent string.

Modules:

- `Strings`: `Option`, substring occurrence (JavaScript's `includes`) with its
  specification `Occurs`, and ASCII lower-casing.
- `DebugLog`: `addDebugInfo`'s `[...prev.slice(-4), entry]` as `Append`, the repeated
  append `AppendAll`, and the proof that the log always holds the newest five lines.
- `Translation`: the eight language templates and the generic fallback (`Translate`). It
  also has the inverse `Recover`, which gets back the input text from a result.
- `Browser`: the browser family (`Unknown` stands for the initial `""`), the ordered
  user-agent test `Classify`, and the rendered label `Shown`.
- `Results`: a recognition event as a `Batch` of `Segment`s. `ScanBatch` is the loop of
  `onresult`. `Joined` is its specification. Lemmas cover what a series of events does to
  the transcript and to the translation requests.
- `Controller`: the class `Session` holds the page's state fields. It has one method per
  user action (start, stop, clear, clear debug), per recognition callback (`onstart`,
  `onresult`, `onerror`, `onend`) and per timer. `ErrorAlert` chooses the alert for an
  error code.

Asynchronous steps are split into a request and a later event. `startListening` becomes
`RequestStart`, followed by `PermissionGranted` or `PermissionDenied`. A granted start sets
a start timer, and `StartTimerFires` handles it. `handleTranslation` becomes
`RequestTranslation`, which records a pending timer holding its text.
`TranslationTimerFires` lets any pending timer fire. On the page all translation timers
have the same 1500 ms delay, so they fire oldest first; the model allows that order and
every other one. Time stamps (one per log line), the outcome of the permission request,
beep errors and errors thrown by the recognition object's `start()` are parameters of the
methods.

Three behaviours of the page that are easy to misread:

- A recognition object whose construction throws is reported on the console only, not in
  the diagnostic log (`Detect` leaves `debugInfo` alone).
- `onerror` stops listening but does not clear the interim text. Of the recognition
  callbacks only `onend` clears it; `clearAll` and the permission grant clear it too.
- Unknown error codes raise no alert and add nothing to the diagnostic log.

## Model

| member | source | states |
|---|---|---|
| `Strings.Includes` | app/translator/page.tsx:65-69 | `includes` is true exactly when the pattern occurs at some index of the string |
| `DebugLog.Append` | app/translator/page.tsx:20-23 | one append gives between 1 and 5 lines with the new entry last, no old line is dropped while the log has fewer than 5, and the result is exactly the newest 5 of the old lines and the entry together, so the kept lines stay in their old order |
| `DebugLog.AppendToNewest` | app/translator/page.tsx:20-23 | lines older than the newest 5 never influence a later append |
| `DebugLog.AppendAllKeepsNewest` | app/translator/page.tsx:20-23 | after any number of appends, the log equals the newest 5 of all lines ever logged, in logging order; so its length is at most 5 and the newest line is last |
| `Translation.Translate` | app/translator/page.tsx:159-169 | every translation contains the input text verbatim; the fallback also contains the language code |
| `Translation.RecoverTranslate` | app/translator/page.tsx:159-169 | each template's result, and the `Translation to {code}: {text}` fallback, gives back exactly the text it was made from |
| `Translation.TranslateRecover` | app/translator/page.tsx:159-169 | any string of the shape a template (or the fallback) produces is the translation of the text recovered from it |
| `Translation.EveryLanguageHasTemplate` | app/translator/page.tsx:25-34 | the eight selectable codes are exactly the codes with a template |
| `Browser.Classify` | app/translator/page.tsx:64-73 | the lower-cased user agent gives firefox iff it contains "firefox"; chrome iff it contains "chrome" but not "firefox"; edge iff it contains "edge" but neither earlier word; other otherwise; never the initial unknown |
| `Browser.Shown` | app/translator/page.tsx:363 | The browser label is never empty, is "Unknown" exactly when the browser has not been classified, and otherwise is the name of the classified browser. |
| `Results.ScanBatch` | app/translator/page.tsx:99-109 | the loop over `results[resultIndex..]` yields the final segments' text and the interim segments' text, each concatenated in order (nothing when the index is past the end) |
| `Results.JoinedAppend` | app/translator/page.tsx:102-109 | collecting one kind of segment distributes over concatenating segment lists |
| `Results.JoinedEmpty` | app/translator/page.tsx:113-116 | a batch's final text is empty exactly when every final segment in it is empty, so only then is no translation requested |
| `Results.SplitKeepsEverything` | app/translator/page.tsx:102-109 | final text and interim text together have exactly as many characters as all transcripts of the batch |
| `Results.AccumulatedIsFinalText` | app/translator/page.tsx:113-114 | after any series of events, the transcript is the old transcript followed by every final segment delivered, in delivery order |
| `Results.RequestsSpellFinalText` | app/translator/page.tsx:113-116 | a series of events requests one translation per event with final text, never an empty one, and the requests together spell out all the final text |
| `Controller.DeliverAll` | app/translator/page.tsx:98-117 | a series of `onresult` events leaves the transcript equal to `Accumulated`, which is the old transcript followed by every final segment delivered; the pending translations gain exactly `Requests` of the series; the interim text is the last event's; translating is shown iff it was or some request was made |
| `Controller.ErrorAlert` | app/translator/page.tsx:123-133 | "not-allowed" and "network" each get their own alert; "service-not-allowed" gets the Firefox hint exactly when the browser is Firefox; any other code gets no alert |
| `Controller.Session.constructor` | app/translator/page.tsx:7-16 | at mount nothing is listening or translating; texts and log are empty; support is assumed; the browser is not yet classified; there is no recognition object |
| `Controller.Session.Log` | app/translator/page.tsx:20-23 | the log becomes `Append` of the old log and the stamped message, and stays within 5 lines |
| `Controller.Session.ClearDebug` | app/translator/page.tsx:378-380 | "Clear Debug" empties the log |
| `Controller.Session.Detect` | app/translator/page.tsx:62-153 | the browser type becomes the classification of the user agent; support holds exactly when a recognition object was constructed; an existing object is kept when a later construction fails |
| `Controller.Session.RequestStart` | app/translator/page.tsx:174-189 | with no recognition object only the log changes, and the "not available" alert is raised; while listening only the log changes; otherwise one permission request is added as well; nothing is cleared in any case; each of the two log lines carries its own time stamp |
| `Controller.Session.PermissionGranted` | app/translator/page.tsx:191-215 | only after the permission is granted are transcript, translation and interim text cleared and a start timer set; the log records the grant and then the beep outcome, each with its own time stamp |
| `Controller.Session.PermissionDenied` | app/translator/page.tsx:217-220 | a denial clears nothing and sets no start timer; it logs the error and raises the "microphone required" alert |
| `Controller.Session.StartTimerFires` | app/translator/page.tsx:207-215 | the timer logs the start attempt; if `start()` throws, it logs the error with its own time stamp and raises the "failed to start" alert |
| `Controller.Session.OnStart` | app/translator/page.tsx:93-96 | `onstart` sets listening |
| `Controller.Session.RequestTranslation` | app/translator/page.tsx:155-158 | translating is shown and one timer carrying the text is added after the pending ones |
| `Controller.Session.OnResult` | app/translator/page.tsx:98-117 | the interim text is replaced by the batch's interim text, even when that is empty; the transcript gains the batch's final text; exactly one translation of that text is requested iff it is non-empty, and otherwise nothing about translation changes |
| `Controller.Session.TranslationTimerFires` | app/translator/page.tsx:158-171 | any pending timer may fire; the translation becomes the template lookup of its text, translating ends, and only that timer is removed |
| `Controller.Session.OnError` | app/translator/page.tsx:119-134 | `onerror` always stops listening, and raises the alert `ErrorAlert` chooses for the code and the current browser |
| `Controller.Session.OnEnd` | app/translator/page.tsx:136-140 | `onend` stops listening and clears the interim text |
| `Controller.Session.StopListening` | app/translator/page.tsx:223-228 | stop() is called (after the stop beep) exactly when a recognition object exists and the page is listening; no state changes, not even listening |
| `Controller.Session.ClearAll` | app/translator/page.tsx:230-239 | whatever the prior state, transcript, translation and interim text are empty and neither translating nor listening holds; stop() is called exactly when there was a recognition object and the page was listening |

## Left out

- The beeps (`playBeep`, `playStartBeep`, `playStopBeep`). They are Web Audio calls with floating-point frequencies and gain ramps. Only whether the start beep threw is kept, as the `beepError` parameter. `Controller.Session.StopListening` does not model a stop beep that throws and so prevents the stop() call.
- Wall-clock time. The 200 ms start delay and the 1500 ms translation delay are pending steps, and any pending step may run next. `new Date().toLocaleTimeString()` is an opaque `stamp` parameter.
- `Controller.Session.TranslationTimerFires`: it takes the language as a parameter. On the page, the timer reads `selectedLanguage` as captured by the render in which the mount effect last ran. Because the parameter is free, it covers both the captured value and the current selection. For the same reason the language selector (`setSelectedLanguage`) is not state in the model.
- `Translation.Translate`: a code that names a property inherited by every JavaScript object (such as `constructor`) is treated as having no template. On the page the lookup would return that inherited value. The selector offers only the eight codes.
- `Browser.Classify`: lower-casing is modelled for ASCII letters only. JavaScript's `toLowerCase` also folds non-ASCII letters, some of them into ASCII ones.
- Constructing the recognition object. The vendor-prefixed constructor lookup, the settings (`continuous`, `interimResults`, `lang`, `maxAlternatives`), and replacing an earlier object when the effect runs again are reduced to the `Facility` outcome given to `Detect`.
- A recognition result's alternatives. Only the first alternative's transcript is read. A result with no alternatives, and a negative `resultIndex`, are not modelled.
- The microphone permission request itself (`getUserMedia`). It is reduced to a grant or deny event. The media stream it returns is never stopped on the page, and that is not modelled either.
- The wording of the alert boxes (app/translator/page.tsx:124-131, 179, 213, 219). Each alert is an `Alert` value; the long message strings are not carried.
- Console output, the server-side rendering guard (`typeof window`), and all JSX rendering and styling (app/translator/page.tsx:241-448). The only exception is the browser label, `Browser.Shown`.
- The static pages `app/page.tsx`, `app/about/page.tsx` and `app/layout.tsx`, which have no state or logic.
