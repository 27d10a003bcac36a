# YouTube Transcript Extractor — capture slot and popup export, modelled in Dafny

This project models the two stateful pieces of a browser extension that
captures YouTube caption transcripts:

- **The background service worker** (`background.js`, module `Background`,
  file `background.dfy`). It keeps ONE global slot for the last
  auto-captured transcript: an in-memory field `capturedTranscript` mirrored
  in the `capturedTranscript` key of the extension's local storage. It also
  drives a toolbar badge (text, colour, title). A message listener routes
  three actions. `transcriptCaptured` stamps the payload and writes it to
  both slots. `getCapturedTranscript` answers from memory first, then falls
  back to storage and caches what it finds. `clearCapturedTranscript` empties
  both slots and resets the badge. `initialize` restores memory from storage.
  Pure functions (`Capture`, `Get`, `Clear`, `Initialized`, `Restarted`,
  `Dispatch`) specify each step on a `State` value. The class
  `TranscriptExtractorBackground` performs the same steps in place, and each
  of its methods is proved to match its step function. Lemmas then prove what
  runs of steps guarantee. Storage holds exactly the last write (a reference
  definition, `LastWrite`). Memory stays a cache of storage. The badge stays
  in agreement with storage. A get after any run returns the last captured
  record.
- **The popup** (`popup.js`). Module `Export` (file `export.dfy`) holds the
  pure string logic of the download: the safe title, the file name, the
  metadata header joined by line breaks, and the decimal rendering of the
  word count. Each comes with a partner: idempotence of sanitising, reading
  title and id back out of the file name, splitting the header back into its
  ten lines, and parsing the decimal back. Module `Popup` (file `popup.dfy`)
  holds the class `YouTubeTranscriptPopup`. It models the six page sections
  (exactly one is visible after `ShowSection`), the captured-transcript
  banner and its dismiss guard (at most one clear message), the language
  selector built from caption tracks, and the plain/timestamped text choice
  shared by display and download.

The code keeps one global slot for the last capture.

`displayTranscriptResults` fills the textarea before it resets the timestamp
mode (popup.js:330-334). The model keeps that order.
`DisplayTranscriptResults` states that the textarea holds the text of the
mode in force when the call began, while the toggle and mode afterwards are
off. The textarea and the toggle therefore disagree after a new transcript
arrives while timestamp mode was on. After a toggle change
(`OnTimestampToggle`) they agree again.

## Model

| member | source | states |
|---|---|---|
| Background.Stamp | background.js:60-64 | the stored record has every payload field plus `capturedAt = now` and `captureMethod = "Auto-capture"`, and these two override payload fields of the same name |
| Background.Dispatch | background.js:15-31 | the listener returns true exactly for the three known actions; any other action sends no response and changes nothing; a response is sent only when a responder is given, and always then for a known action |
| Background.TranscriptExtractorBackground.constructor | background.js:5-8 | a new worker starts with empty memory over the storage and badge the browser holds |
| Background.TranscriptExtractorBackground.HandleCapturedTranscript | background.js:56-123 | the new state and response are those of the capture step |
| Background.TranscriptExtractorBackground.GetCapturedTranscript | background.js:126-157 | the new state and response are those of the get step: memory first, storage fallback cached, failure otherwise |
| Background.TranscriptExtractorBackground.ClearCapturedTranscript | background.js:160-175 | the new state and response are those of the clear step |
| Background.TranscriptExtractorBackground.Initialize | background.js:192-203 | the new state is storage copied into memory when storage holds a record, otherwise unchanged |
| Background.TranscriptExtractorBackground.Restart | background.js:206-215 | a fresh worker re-runs the script, so a new instance starts with empty memory (background.js:6) and runs initialize; the `onStartup` listener runs initialize again, which changes nothing more |
| Background.TranscriptExtractorBackground.OnMessage | background.js:12-32 | the listener's return value, new state and response are those of `Dispatch` |
| Background.CaptureStoresStamped | background.js:60-79 | after a capture both slots hold the stamped record, the badge is "1" on "#4CAF50" titled "Transcript captured! Click to view", and a responder gets `{success: true}` |
| Background.LastCaptureWins | background.js:60-77 | a second capture fully replaces the first and the badge stays "1" |
| Background.GetPrefersMemory | background.js:128-137 | with memory filled, get returns it, changes nothing and does not depend on storage |
| Background.GetFallsBackToStorage | background.js:140-149 | with memory empty and storage filled, get copies the stored record into memory and returns it |
| Background.GetEmptyFails | background.js:150-155 | with both slots empty, get answers `{success: false, error: "No captured transcript"}` and changes nothing |
| Background.ClearResets | background.js:160-175 | clear empties both slots, blanks the badge text, sets the title "Extract YouTube Transcript", is idempotent, and a later get fails |
| Background.InitializeKeepsMemory | background.js:192-203 | initialize never empties memory, fills it exactly when storage holds a record, and is idempotent |
| Background.StepPreserves | background.js:56-203 | every message or restart keeps memory coherent with storage and the badge in agreement with storage, and leaves storage at the step's last write |
| Background.RunStorageIsLastWrite | background.js:56-175 | after any run, storage holds the record of the last capture, nothing if the last write was a clear, and the initial slot if there was no write |
| Background.RunPreservesInvariants | background.js:56-203 | any run keeps memory a cache of storage and the badge in agreement with storage |
| Background.RunThenGet | background.js:126-157 | from a coherent start, a get after any run returns the last captured record, or fails when the last write was a clear or nothing was written |
| Export.EncodeChar | popup.js:424 | a character below U+10000 is one code unit; any other is a high then a low surrogate from which the character is recovered |
| Export.Utf16OfBmp | popup.js:424 | a string without characters beyond U+FFFF has exactly one code unit per character, equal to it |
| Export.ReplaceNonAlnum | popup.js:425 | same length in code units; each ASCII letter or digit is kept and every other code unit becomes `_` |
| Export.ToLowerCase | popup.js:426 | same length; each code unit is lower-cased |
| Export.Prefix | popup.js:427 | `substring(0, n)`: the first `min(n, length)` code units, unchanged |
| Export.SafeTitle | popup.js:424-427 | length is the smaller of 50 and the title's length in UTF-16 code units; character i is the lower case of code unit i when that is an ASCII letter or digit and `_` otherwise; every character is in `[a-z0-9_]` |
| Export.AstralCharBecomesTwoUnderscores | popup.js:424-427 | a character beyond U+FFFF, such as an emoji, becomes two underscores, one per surrogate |
| Export.SafeTitleIdempotent | popup.js:424-427 | sanitising a safe title again changes nothing |
| Export.SafeTitleKeepsSafe | popup.js:424-427 | a title of at most 50 characters from `[a-z0-9_]` is its own safe title |
| Export.DownloadFilename | popup.js:429 | the name is `youtube_transcript_`, the safe title, `_`, the video id and `.txt`; title and id can be read back at known positions |
| Export.SplitJoin | popup.js:402-415 | lines without line breaks joined with "\n" split back into the same lines |
| Export.NatToDecimal | popup.js:410 | the decimal rendering of a count is a non-empty string of digits that starts with `0` only for zero |
| Export.IntToDecimal | popup.js:410 | the rendering of the word count holds no line break |
| Export.DecimalRoundTrip | popup.js:410 | reading the decimal rendering back gives the number |
| Export.MetadataLines | popup.js:402-415 | ten header lines, the first "YouTube Transcript", then the marker "--- TRANSCRIPT ---" between two empty lines at the end |
| Export.HeaderShape | popup.js:402-415 | the joined header begins with "YouTube Transcript\n" and ends with "\n--- TRANSCRIPT ---\n" |
| Export.MetadataSplits | popup.js:402-415 | when title, id, language and time hold no line break, the header splits back into exactly its ten lines |
| Export.ContentShape | popup.js:402-417 | the file content begins with "YouTube Transcript\n", its header ends with the marker line, and the selected text follows the header unchanged |
| Popup.OptionLabel | popup.js:257-259 | an option label is the track name and a space, and ends in "(Auto-generated)" exactly when the track is auto-generated, otherwise in "(Manual)" |
| Popup.YouTubeTranscriptPopup.constructor | popup.js:3-11 | a new popup has no video data, no transcript, timestamp mode off, no captured flag and no message sent |
| Popup.YouTubeTranscriptPopup.ShowSection | popup.js:77-97 | every present section of the six is hidden except `sectionId`; a name outside the six hides them all; missing elements and other elements are untouched |
| Popup.OnlySectionVisible | popup.js:77-97 | once one section is shown, the visible sections of the six are that one alone when it is one of them and present, and none otherwise |
| Popup.YouTubeTranscriptPopup.FillLanguageOptions | popup.js:250-261 | the selector holds the placeholder, then one option per caption track, in track order |
| Popup.YouTubeTranscriptPopup.ShowCapturedBanner | popup.js:156-168 | the banner is shown and the tip notice hidden, as far as each is present |
| Popup.YouTubeTranscriptPopup.HideCapturedBanner | popup.js:171-183 | the banner is hidden and the tip notice shown, as far as each is present |
| Popup.YouTubeTranscriptPopup.DismissCapturedTranscript | popup.js:185-193 | without the captured flag nothing happens; with it, one clear message is sent, the flag drops and the banner hides, so a repeated call sends nothing |
| Popup.YouTubeTranscriptPopup.HandlePopupUnload | popup.js:195-199 | unload sends a clear message and hides the banner only while the flag is up, so dismiss then unload sends at most one; without the flag nothing on the page changes |
| Popup.YouTubeTranscriptPopup.UpdateTranscriptDisplay | popup.js:340-353 | the textarea holds the timestamped text in timestamp mode and the plain text otherwise; nothing changes without a transcript |
| Popup.YouTubeTranscriptPopup.OnTimestampToggle | popup.js:53-58 | the mode follows the toggle and the textarea then shows the text of that mode |
| Popup.YouTubeTranscriptPopup.OnLanguageChange | popup.js:61-66 | the extract button is disabled exactly when the placeholder is selected |
| Popup.YouTubeTranscriptPopup.DisplayTranscriptResults | popup.js:319-337 | info badges come from the data; the textarea holds the text of the mode in force before the call; mode and toggle end off; only the results section is visible; the banner, the tip notice and every other element keep their flags |
| Popup.YouTubeTranscriptPopup.ReceiveCapturedTranscript | popup.js:121-146 | a transcript found on opening becomes current, raises the captured flag, shows the banner and hides the tip; without video data nothing else changes; with it the video data becomes current, the badges and textarea show the transcript, mode and toggle end off, and only the results section is visible |
| Popup.YouTubeTranscriptPopup.ReceiveExtractedTranscript | popup.js:306-308 | an extracted transcript becomes current; the badges and textarea show it, mode and toggle end off, only the results section is visible and every other element keeps its flag |
| Popup.YouTubeTranscriptPopup.DisplayVideoInfo | popup.js:237-275 | no transcripts shows only "no-transcripts" and leaves every other element as it was; otherwise the options are the placeholder then one per track, the extract button is disabled exactly when there is more than one track, a single track is selected, only "video-info" is visible, and apart from the language selection no other element changes |
| Popup.YouTubeTranscriptPopup.DownloadTranscript | popup.js:394-438 | nothing without both a transcript and video data; otherwise the file is named by the safe file name and holds the metadata header over the same selected text as the display |

## Left out

- Notifications are not modelled: the permission-level check, the toast, the handling of its click, and the fallback to a new tab (background.js:35-52, 82-115). They are fire-and-forget browser calls that change no modelled state.
- `notifyPopupsTranscriptReady` and all console logging are not modelled, for the same reason.
- Storage callbacks are asynchronous in the source. Here each storage call takes effect in program order. Interleavings of a pending storage read with other messages are not modelled.
- A failing storage read in `initialize` (its `catch`) is not modelled: storage reads always succeed here.
- A restart is `Restart`: memory is lost, then initialize runs. The worker's lifecycle events themselves are not modelled.
- Local storage outlives a browser restart while the badge does not. So `BadgeAgrees` is only proved to be preserved; the constructor does not establish it.
- A capture payload is modelled as a record of named fields. The spread of a payload that is not an object is not modelled.
- `Date.now()` is the parameter `now`. `new Date().toLocaleString()` is the parameter `extractedAt`.
- The popup's start-up and its `chrome.tabs` round-trips are not modelled as such: `init`, `bindEvents`, `checkCurrentPage`, and the tab queries in `checkForCapturedTranscript` and `extractTranscript`. Their successful continuations are `ReceiveCapturedTranscript` and `ReceiveExtractedTranscript`. The video answer of the first is an `Option` parameter.
- `showLoading` and `showError` messages are not modelled, nor the clipboard copy and its `execCommand` fallback.
- Browser details are not modelled: textarea auto-resize, the Blob, object URL and anchor click of the download, and `JSON.stringify`/`JSON.parse` of caption tracks. An option's value is the track itself.
- Popup.YouTubeTranscriptPopup.DisplayVideoInfo: requires the `language-selection` element to be present when the video has transcripts, because only then does the source touch it and throw without it. The other elements it writes are modelled as text fields that always exist.
- Popup.YouTubeTranscriptPopup.DisplayVideoInfo: with `hasTranscripts` true and no tracks, the source selects `JSON.stringify(undefined)`, which matches no option. The model leaves the selection empty.
- Page elements are an enumeration: the six sections, the banner, the tip notice, the language selection, and `Other(id)` for the rest. Callers name sections by their constructor, so `Other("loading")` does not stand for the loading section.
- Strings are sequences of Unicode characters. The safe title encodes the title into UTF-16 code units first, as JavaScript holds it. A JavaScript string with a lone surrogate has no counterpart as a Dafny `string` and is not modelled.
- Export.ToLowerCase: lower-cases ASCII letters only. It is exact on its only input here, which holds nothing but ASCII letters, digits and `_`.
- Word counts are integers. Fractional or missing counts are not modelled.
- Export.IntToDecimal: renders every integer in plain decimal digits. JavaScript writes magnitudes of 1e21 and above in exponential form ("1e+21"), which is not modelled.
- inject.js is not part of this model. It intercepts the page's `XMLHttpRequest` and `fetch`, which is I/O.
