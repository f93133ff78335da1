# WhatsApp Voice Tagger — a Dafny model of its core

WhatsApp Voice Tagger is a browser extension with a small server. The content script records a voice note in the WhatsApp Web page. It sends the bytes to the extension's background script, which uploads them to the server. The server transcribes the note and picks out the person it is addressed to. Back in the page, that addressee is matched against the contacts read from the chat list.

This project models the parts of that pipeline that decide things:

- `edit_distance.dfy`: the Levenshtein table of the content script. `Lev` is the recursive reference definition. `LevenshteinDistance` is the table-filling loop on an `array2`, proved equal to it.
- `contacts.dfy`: the contact directory, which is rebuilt from the chat list and then merged with the members of an open group chat (a class whose `contacts` field the method reassigns). It also holds the fuzzy addressee resolver, `findBestMatchingContact`, with its 0.6 similarity threshold.
- `codec.dfy`: the byte transport between the two scripts. The content script turns the recording into an array of numbers. The background script rebuilds the buffer with `new Uint8Array`.
- `background.dfy`: the background script's listener and its settings (a class), plus the following:
  - choosing the payload from a `PROCESS_VOICE_NOTE` message;
  - normalising the payload to bytes;
  - the 1000-byte upload floor;
  - handling the server's reply;
  - defaulting the result object;
  - rewriting timeout and network errors.
- `recording.dfy`: the content script's recording bookkeeping (a class). It covers the chunks, the `isRecording` flag, each recorder event and timer, sending the recording, and handling the result. It also has an end-to-end session from the first chunk to the upload.
- `entity_extractor.py` is modelled in `entity_extractor.dfy`. It covers:
  - the twelve addressing patterns, searched case-insensitively in list order;
  - the cascade from patterns to the first PERSON entity to the first potential name;
  - the potential-name lists built from proper nouns and short noun chunks.
- `text.dfy` and `wrappers.dfy` hold shared helpers: ASCII case folding, whitespace classes, substring search, decimal rendering, and `Option`/`Result`.

Some external inputs become parameters:

- The DOM's text content becomes a value passed in.
- getUserMedia's and the recorder's outcome become a `StartOutcome` value.
- fetch's outcome becomes a `FetchOutcome` value.
- spaCy's tokens, entities and noun chunks become a `Doc` value.

JavaScript numbers in the similarity score are exact rationals (`real`). The 0/0 case is an explicit `NaN` score that never wins a comparison.

## Model

| member | source | states |
|---|---|---|
| EditDistance.LevenshteinDistance | whatsapp_voice_tagger_extension/content.js:652-675 | the value the table loop returns is the edit distance `Lev` of the two strings |
| EditDistance.LevEmpty | whatsapp_voice_tagger_extension/content.js:657-662 | the distance to or from the empty string is the other string's length (the table's first row and column) |
| EditDistance.LevBounds | whatsapp_voice_tagger_extension/content.js:664-674 | the distance lies between the difference of the lengths and the longer length, so the similarity is never negative |
| EditDistance.LevZeroIffEqual | whatsapp_voice_tagger_extension/content.js:664-674 | the distance is 0 exactly when the strings are equal, so a similarity of 1 means an exact match |
| Contacts.Trim | whatsapp_voice_tagger_extension/content.js:49 | the trimmed name is a slice of the text with only whitespace before and after it, and it neither starts nor ends with whitespace: exactly the leading and trailing whitespace is removed |
| Contacts.Split | whatsapp_voice_tagger_extension/content.js:63 | splitting at commas gives at least one piece and no piece contains a comma |
| Contacts.JoinSplit | whatsapp_voice_tagger_extension/content.js:63 | joining the pieces with commas gives the member line back, so nothing is lost by splitting |
| Contacts.RosterContacts | whatsapp_voice_tagger_extension/content.js:44-54 | at most one entry per chat-list cell; every entry is a roster entry |
| Contacts.RosterContactsAppend | whatsapp_voice_tagger_extension/content.js:45-54 | the entries of concatenated cell lists are the concatenated entries, so cell order is kept |
| Contacts.RosterSingle | whatsapp_voice_tagger_extension/content.js:46-54 | a cell without a name element gives no entry (the null that filter(Boolean) drops); a named cell gives one entry, its trimmed name |
| Contacts.GroupMembers | whatsapp_voice_tagger_extension/content.js:61-63 | there is one member more than there are commas in the trimmed line; member i is the trimmed i-th comma-separated piece and holds no comma |
| Contacts.SplitCount | whatsapp_voice_tagger_extension/content.js:63 | splitting at a separator gives one piece more than the separator occurs |
| Contacts.MergeProperties | whatsapp_voice_tagger_extension/content.js:66-80 | the roster is kept as a prefix; each added entry is a member other than "You", not equal ignoring case to any earlier entry; every member other than "You" is present ignoring case |
| Contacts.ContactDirectory.ExtractContacts | whatsapp_voice_tagger_extension/content.js:42-88 | the directory becomes the roster entries, merged with the group members when the member line is present |
| Contacts.ContactDirectory.AddGroupMembers | whatsapp_voice_tagger_extension/content.js:66-80 | the member loop turns the directory into `Merge` of the old directory and the members, which MergeProperties characterises |
| Contacts.Similarity | whatsapp_voice_tagger_extension/content.js:640 | the score is a number exactly when one name is non-empty; then it lies in [0, 1] and is 1 exactly for equal names |
| Contacts.ThresholdInIntegers | whatsapp_voice_tagger_extension/content.js:640-649 | the test `score > 0.6` holds exactly when 5·(m − d) > 3·m, for distance d and longer length m |
| Contacts.ScanIsFirstBest | whatsapp_voice_tagger_extension/content.js:635-646 | the loop keeps the first contact with the strictly highest positive score, with that score; it keeps none and a score of 0 when no contact scores above 0 |
| Contacts.FirstBestUnique | whatsapp_voice_tagger_extension/content.js:642-645 | the first contact with the highest score is unique, so the strict `>` makes the choice deterministic |
| Contacts.BestMatch | whatsapp_voice_tagger_extension/content.js:629-650 | an empty directory gives null; a returned name is the name of some contact |
| Contacts.BestMatchIsFirstBestAboveThreshold | whatsapp_voice_tagger_extension/content.js:629-650 | a contact is chosen exactly when it is the first with the highest score against the lower-cased addressee and that score exceeds 0.6 |
| Contacts.ExactMatchIsChosen | whatsapp_voice_tagger_extension/content.js:634-649 | a non-empty addressee equal, ignoring case, to a contact's name resolves to the first such contact, in its original case |
| Contacts.EmptyAddresseeNeverMatches | whatsapp_voice_tagger_extension/content.js:640-649 | an empty addressee resolves to null whatever the directory holds |
| Contacts.ChosenIndexIgnoresCase | whatsapp_voice_tagger_extension/content.js:634-639 | re-casing the addressee or any contact name does not change which contact is chosen |
| Contacts.FindBestMatchingContact | whatsapp_voice_tagger_extension/content.js:629-650 | the loop over the directory returns `BestMatch`: the first best-scoring contact's name if its score exceeds 0.6, else null |
| Codec.ToUint8 | whatsapp_voice_tagger_extension/background.js:78 | a Number stored into a Uint8Array keeps a value in 0..255 and is otherwise reduced modulo 256 |
| Codec.DecodeEncode | whatsapp_voice_tagger_extension/content.js:391-392 | rebuilding a Uint8Array from the sent number array gives exactly the recorded bytes, with the same length |
| Codec.EncodeDecode | whatsapp_voice_tagger_extension/background.js:78-79 | an array survives the rebuild unchanged exactly when every element is a byte value |
| Background.Normalize | whatsapp_voice_tagger_extension/background.js:123-155 | the payload is accepted exactly for an ArrayBuffer, a Blob, an array, or an object that is array-like or wraps an audioBlobArray, with the bytes each gives; otherwise the error is "Invalid audio data format", with the conversion message for objects |
| Background.MapError | whatsapp_voice_tagger_extension/background.js:232-239 | an AbortError becomes the timeout message; a message mentioning NetworkError becomes the network message; any other error is rethrown unchanged |
| Background.PlainErrorKept | whatsapp_voice_tagger_extension/background.js:235-239 | an error whose message has no "N" passes the error mapping unchanged |
| Background.MapErrorIdempotent | whatsapp_voice_tagger_extension/background.js:232-239 | mapping an already mapped error changes nothing |
| Background.SetProp | whatsapp_voice_tagger_extension/background.js:224-225 | a property assignment sets that key and leaves every other key and an array's elements as they were |
| Background.DefaultResult | whatsapp_voice_tagger_extension/background.js:213-226 | a non-object becomes the demo fallback; an object with both keys is returned as is; otherwise addressee defaults to null and transcription to "" when falsy; other keys are untouched; the result always has both keys |
| Background.DefaultResultIdempotent | whatsapp_voice_tagger_extension/background.js:213-226 | defaulting a defaulted result leaves it as it is |
| Background.HandleReply | whatsapp_voice_tagger_extension/background.js:191-228 | the outcome is a result exactly for an ok response with parseable JSON (then the defaulted result); a rejection, a non-ok status and a parse failure each give their own mapped error |
| Background.ServerErrorReported | whatsapp_voice_tagger_extension/background.js:191-200 | a non-ok status is reported as "Server error: <status> - <body>" when the body does not mention NetworkError |
| Background.ProcessVoiceNote | whatsapp_voice_tagger_extension/background.js:115-241 | an upload to `<serverUrl>/process_audio` is made exactly when normalisation succeeds with at least 1000 bytes; conversion errors and "too short" are reported without an upload; a successful result always carries addressee and transcription |
| Background.SelectPayload | whatsapp_voice_tagger_extension/background.js:28-98 | audioBinary is preferred, then audioBlob, then an audioBlobArray rebuilt into an ArrayBuffer; "Empty audio recording" and "No audio data provided" are reported exactly in their cases |
| Background.BinaryTakesPrecedence | whatsapp_voice_tagger_extension/background.js:28-49 | with a truthy audioBinary, the blob and array fields do not affect the outcome |
| Background.BlobTakesPrecedence | whatsapp_voice_tagger_extension/background.js:50-71 | without audioBinary, a truthy audioBlob makes the array field irrelevant |
| Background.ErrorText | whatsapp_voice_tagger_extension/background.js:46 | the error text is the error's message when it has one, and is never empty ("Unknown error" otherwise) |
| Background.Respond | whatsapp_voice_tagger_extension/background.js:39-47 | a fulfilled promise answers success with its result; a rejected one answers failure with a non-empty error text, the message when there is one |
| Background.BackgroundScript.constructor | whatsapp_voice_tagger_extension/background.js:4-5 | the server URL starts at http://localhost:5000 and the extension starts enabled |
| Background.BackgroundScript.OnMessage | whatsapp_voice_tagger_extension/background.js:11-112 | per message type: the response sent, the upload made and the new settings; a disabled extension refuses voice notes; unknown types change nothing and send nothing |
| Background.SetThenGetServerUrl | whatsapp_voice_tagger_extension/background.js:105-110 | a stored server URL is what GET_SERVER_URL answers; the enabled flag is untouched |
| Background.SetThenGetEnabled | whatsapp_voice_tagger_extension/background.js:99-104 | a stored enabled value is what GET_ENABLED answers; the server URL is untouched |
| Background.DisabledRejectsVoiceNotes | whatsapp_voice_tagger_extension/background.js:20-25 | after SET_ENABLED false, every voice note is refused with "Extension is disabled" and nothing is uploaded |
| Recording.ConcatSize | whatsapp_voice_tagger_extension/content.js:371-372 | the Blob built from the chunks is as large as the chunks together |
| Recording.NonEmptyChunksNonEmptyBlob | whatsapp_voice_tagger_extension/content.js:234-235 | stored chunks, each non-empty, make a Blob of at least one byte per chunk |
| Recording.VoiceNoteTransport | whatsapp_voice_tagger_extension/content.js:391-400 | the sent message is decoded to exactly the recorded bytes with its byteLength; it is uploaded at 1000 bytes or more and refused as too short below that |
| Recording.VoiceRecorder.constructor | whatsapp_voice_tagger_extension/content.js:19-24 | no recorder, no stream, no chunks, not recording |
| Recording.VoiceRecorder.StartRecording | whatsapp_voice_tagger_extension/content.js:200-280 | the chunks and the manual-stop flag are reset; any failure leaves isRecording false and sets up no interval; a failed recorder constructor keeps the old recorder, a failed start keeps the new, inactive recorder; success holds a recording recorder, a stream and one more running interval |
| Recording.StartFailureThenStop | whatsapp_voice_tagger_extension/content.js:229-296 | after the recorder's start throws, a stop sees the inactive new recorder: no timers, isRecording cleared |
| Recording.VoiceRecorder.OnDataAvailable | whatsapp_voice_tagger_extension/content.js:232-237 | only non-empty data is appended to the chunks |
| Recording.VoiceRecorder.OnRecorderStart | whatsapp_voice_tagger_extension/content.js:239-243 | the start event sets isRecording and changes nothing else |
| Recording.VoiceRecorder.OnRecorderStop | whatsapp_voice_tagger_extension/content.js:245-251 | the stop event clears isRecording and keeps the chunks |
| Recording.VoiceRecorder.DataRequestTick | whatsapp_voice_tagger_extension/content.js:265-272 | a cleared interval never requests data; a running one requests exactly while the current recorder records and no manual stop was asked for, and clears itself otherwise |
| Recording.VoiceRecorder.StopRecording | whatsapp_voice_tagger_extension/content.js:283-304 | the stop timers are scheduled exactly when a recorder exists and is not inactive; otherwise isRecording is cleared at once |
| Recording.VoiceRecorder.StopRecorderTimer | whatsapp_voice_tagger_extension/content.js:306-311 | the recorder ends inactive and nothing else changes |
| Recording.VoiceRecorder.ReleaseStreamTimer | whatsapp_voice_tagger_extension/content.js:314-346 | the stream is released and isRecording cleared; processing is scheduled exactly when requested and chunks exist; the chunks are discarded exactly when processing was not requested |
| Recording.VoiceRecorder.ProcessRecordedAudio | whatsapp_voice_tagger_extension/content.js:358-425 | nothing is sent without chunks or below 100 bytes; otherwise the message carries the concatenated chunks, at least one byte per chunk; the chunks are kept |
| Recording.VoiceRecorder.HandleProcessingResult | whatsapp_voice_tagger_extension/content.js:484-508 | the addressee is handed on exactly for a successful response with a truthy addressee, and only then are the chunks cleared |
| Recording.RecordAndSend | whatsapp_voice_tagger_extension/content.js:200-425 | two recorded chunks are sent as their concatenation; an enabled background script uploads them to its URL when they reach 1000 bytes |
| EntityExtractor.MatchAt | whatsapp_voice_tagger_server/server/entity_extractor.py:102-113 | a capture is a non-empty run of word characters |
| EntityExtractor.Search | whatsapp_voice_tagger_server/server/entity_extractor.py:117 | `re.search` finds nothing exactly when no position matches, and otherwise gives the capture at the leftmost matching position |
| EntityExtractor.FirstPatternWins | whatsapp_voice_tagger_server/server/entity_extractor.py:116-121 | nothing is extracted exactly when no pattern matches; otherwise the result is the earliest listed pattern's match, even if a later pattern matches further left |
| EntityExtractor.ExtractAddresseePatterns | whatsapp_voice_tagger_server/server/entity_extractor.py:90-121 | an extracted addressee is a non-empty run of word characters |
| EntityExtractor.EmbeddedKeyword | whatsapp_voice_tagger_server/server/entity_extractor.py:102 | keywords are not anchored at word boundaries: "They went" yields "went" |
| EntityExtractor.ExtractEntities | whatsapp_voice_tagger_server/server/entity_extractor.py:26-46 | one record per entity of the document, in entity order, with its text and its label as the type |
| EntityExtractor.Records | whatsapp_voice_tagger_server/server/entity_extractor.py:40 | one record per entity, in order, with the entity's text and label |
| EntityExtractor.PersonTexts | whatsapp_voice_tagger_server/server/entity_extractor.py:69 | the PERSON list is empty exactly when no record is a PERSON; its head is the first PERSON's text |
| EntityExtractor.Words | whatsapp_voice_tagger_server/server/entity_extractor.py:147 | `str.split()` gives one word per maximal run of non-whitespace (the count the one-or-two-words test reads), each non-empty and without whitespace |
| EntityExtractor.NoWordsIffBlank | whatsapp_voice_tagger_server/server/entity_extractor.py:147 | a chunk has no words exactly when it is all whitespace |
| EntityExtractor.ProperNounsProperties | whatsapp_voice_tagger_server/server/entity_extractor.py:140-142 | the proper-noun list holds exactly the texts of the PROPN tokens longer than one character |
| EntityExtractor.ProperNounsAppend | whatsapp_voice_tagger_server/server/entity_extractor.py:140-142 | the list of concatenated token sequences is the concatenation of their lists: token order and duplicates are kept |
| EntityExtractor.ProperNounsSingle | whatsapp_voice_tagger_server/server/entity_extractor.py:141-142 | one token contributes its text exactly when it is PROPN and longer than one character |
| EntityExtractor.FirstProperNoun | whatsapp_voice_tagger_server/server/entity_extractor.py:140-142 | the first qualifying token's text heads the proper-noun list |
| EntityExtractor.AddChunksAdds | whatsapp_voice_tagger_server/server/entity_extractor.py:145-148 | every appended element is a noun chunk of one or two words not listed before it |
| EntityExtractor.AddChunksCovers | whatsapp_voice_tagger_server/server/entity_extractor.py:145-148 | every noun chunk of one or two words is listed afterwards |
| EntityExtractor.AddChunksKeepsNames | whatsapp_voice_tagger_server/server/entity_extractor.py:137-148 | the proper nouns stay, in order, at the front of the list |
| EntityExtractor.ExtractPotentialNames | whatsapp_voice_tagger_server/server/entity_extractor.py:123-150 | the two loops build exactly `PotentialNames`: the proper nouns followed by the new short noun chunks |
| EntityExtractor.AddChunksFirst | whatsapp_voice_tagger_server/server/entity_extractor.py:145-148 | starting from no names, the first noun chunk of one or two words heads the list |
| EntityExtractor.PotentialNamesEmpty | whatsapp_voice_tagger_server/server/entity_extractor.py:137-150 | the list is empty exactly when no token qualifies and no noun chunk has one or two words |
| EntityExtractor.FirstPotentialName | whatsapp_voice_tagger_server/server/entity_extractor.py:78-81 | the first potential name is the first qualifying proper noun; without one, the first noun chunk of one or two words; without one, none |
| EntityExtractor.FirstPerson | whatsapp_voice_tagger_server/server/entity_extractor.py:68-75 | none exactly when no entity is a PERSON; otherwise the text of the first PERSON entity |
| EntityExtractor.ExtractAddressee | whatsapp_voice_tagger_server/server/entity_extractor.py:48-88 | a pattern match wins; without one, the first PERSON entity; without one, the first potential name, or none |

## Left out

- Case folding and the character classes are ASCII only. JavaScript's `toLowerCase`, `trim` and Python's `\w`, `\s`, `IGNORECASE` and `str.split` also treat non-ASCII letters and spaces.
- JavaScript numbers are exact rationals in the score and integers elsewhere. Floating-point rounding of `1 - d/m` near 0.6 is not modelled.
- `ToUint8` is modelled on integral numbers only. Non-integral, NaN and infinite array elements are not modelled.
- The DOM is left out:
  - the selectors;
  - the button and keyboard handlers;
  - notifications;
  - tagAddresseeInChat and the message composer.

  `HandleProcessingResult` returns the addressee it would hand to tagAddresseeInChat. If tagAddresseeInChat throws, the chunks are not cleared; that case is not modelled.
- Timers are left out. The two 500 ms timers of stopRecording and each tick of the 3-second interval are separate methods whose order the caller chooses. The 1000 ms delay before processing is the `processScheduled` result, after which the caller calls `ProcessRecordedAudio`. The 800 ms delay before sending is folded into `ProcessRecordedAudio`. The one case not captured is this: a stop timer left pending by the internal `stopRecording(false)` in startRecording can fire during the next recording.
- Contacts.Similarity: strings are sequences of Unicode scalar values, while JavaScript measures and indexes strings in UTF-16 code units. A character outside the Basic Multilingual Plane, such as an emoji, counts once in `Lev`, `LevenshteinDistance` and the lengths here and twice in the source. That changes distances, scores and matches: "bob" against "bob😀" scores 1 − 2/5 = 0.6 (no match) in the source but 1 − 1/4 here (a match).
- Recording.VoiceRecorder.DataRequestTick: `manualStopRequested` is set by the cancel and send button handlers, which are DOM code and left out, so only its effect on the tick is modelled.
- Recording.VoiceRecorder.StartRecording: getUserMedia, the MediaRecorder and `recordingStartTime` (a clock) are left out; their outcome is the `StartOutcome` parameter.
- Recording.VoiceRecorder.ProcessRecordedAudio: the FileReader and the delay before sending are folded into one step. The read error branch is not modelled.
- Background.ProcessVoiceNote: the network I/O is not modelled. `fetch`, `FormData`, `AbortController`, the 60 s timeout and the `Date.now()` file name become the `FetchOutcome` parameter, which decides the reply.
- Background.BackgroundScript.OnMessage: the listener's `true`/`false` return value (whether the response is asynchronous) is not modelled. A non-string `url` is not modelled. The logging is left out.
- Background.Normalize: `byteLength` and `size` are read only from real ArrayBuffers and Blobs. Array-like objects are taken with all indices present.
- Background.DefaultResult: the parsed object is fresh and unshared, so the in-place update is modelled as building the updated value. A result with an own key named `hasOwnProperty` is not modelled.
- The NLP pipeline is left out: spaCy's tokeniser, tagger, NER and noun chunker. Their output is the `Doc` parameter, and both spaCy calls in `extract_addressee` see the same `Doc`.
- EntityExtractor.ExtractEntities: the exception logging and rethrow are left out.
- The rest of the server is not part of this model: the Flask routes, transcription and model_downloader. So is popup.js.
