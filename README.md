# Edicode playground session, modelled in Dafny

Edicode is a browser-based collaborative code editor. Participants in a room share five fields over a socket relay: the code body, the program input, the program output, the selected language, and a rich-text whiteboard. Each participant can send the code to a third-party judge service to run it.

This project models the one piece of logic in the `PlayGround` component: its session state machine.

- **Session state.** The component's state variables are `roomBody`, `input`, `output`, `language`, `theme`, `fontSize`, the rich-text editor state, the submission state (`Idle`, `running`, `DONE` or an error) and the `loader` flag. The model adds an outbox of emitted socket messages `(topic, value)` and the list of requests posted to the judge.
- **Local edit handlers.** Body, input, output, language and rich text each assign their field and emit exactly one message on that field's topic.
- **Remote handlers.** The five socket subscriptions assign their field and emit nothing.
- **Language effect.** When the language changes, the body becomes that language's starter program. An unknown language gives an empty body.
- **Run guard and result handling.** Run is refused while the submission state is running. A result shows the decoded stdout of an accepted run, or the decoded compiler output of any other.
- **Two lookup tables.** Language to judge id, and language to editor mode.

The files:

- `wrappers.dfy`: the `Option` datatype.
- `languages.dfy` (pure): `ModeTable`, `Languages`, `EditorMode`, `JudgeId`, the starter programs `DefaultCode`, and `DefaultProgram`, which is the choice the language effect makes.
- `session.dfy` (pure specification): the session as a value, the events, and `Step`, the effect of one handler. Per-handler lemmas cover frames, emits, the language rule, the run guard, result handling and failures.
- `collaboration.dfy`: traces of handlers on one participant, and two participants joined by the relay. It proves the outbox is the concatenation of what each event emits (nothing is coalesced). It proves no echo, at most one judge request in flight, and convergence of a peer that receives every message.
- `playground.dfy` (imperative): class `PlayGround`, one method per handler, each proved to have exactly the effect `Step` gives it. A client method at the end walks through "Run twice, then an accepted result".

Some foreign calls are parameters, bundled in `Foreign`, and are not interpreted:

- base64 encoding, which returns `None` where it would throw (a character above U+00FF);
- base64 decoding;
- `EditorState.createEmpty()`;
- the rich-text serialisation `JSON.stringify(convertToRaw(editorState.getCurrentContent()))` (PlayGround.js:241), which keeps only the content of the editor state;
- the parse `EditorState.createWithContent(convertFromRaw(JSON.parse(...)))` (PlayGround.js:122-123), which returns `None` where the parse or the conversion would throw.

In these places the code behaves differently from what its structure suggests, and the model follows the code:

- **No coalescing.** Each local handler builds a fresh debounce wrapper and calls it once, so every edit emits its own message, 100 ms later. No edits inside a window are merged.
- **No validation.** Any language string or font-size string is accepted. An unknown language maps to judge id 53 and gets an empty body.
- **Rich-text parse failure.** A payload that does not parse leaves the document unchanged. The exception thrown by `JSON.parse` or `convertFromRaw` at PlayGround.js:122 is not caught inside the `socket.on` listener, and nothing is assigned.
- **Language effect runs only on a real change.** React re-runs the effect only when the language really changes. Setting the language it already has, locally or remotely, keeps the current body.
- **An unencodable run is stuck.** Run marks the state running before it encodes the body and input. If encoding throws, no request is posted and no response ever arrives. Every later Run then returns at the guard (`Collaboration.UnencodableRunIsStuck`).
- **File upload is local only.** Uploading a file replaces the body for the uploader alone. Nothing is emitted, so peers fall out of sync (`Collaboration.UploadIsNotShared`).

## Model

| member | source | states |
|---|---|---|
| LanguageTables.EditorMode | src/Components/PlayGround/PlayGround.js:18-25 | a mode exists exactly for the table's five keys; c and cpp give "c_cpp"; python, java and javascript give themselves |
| LanguageTables.SelectorMatchesModeTable | src/Components/PlayGround/PlayGround.js:18-25 | the selector lists each language once and exactly the keys of the mode table |
| LanguageTables.JudgeId | src/Components/PlayGround/PlayGround.js:143-158 | the switch gives the table's id for each selectable language (c 49, cpp 53, python 71, java 62, javascript 63) and 53 for every other string; 53 exactly for cpp and unrecognised strings |
| LanguageTables.JudgeIdSeparatesLanguages | src/Components/PlayGround/PlayGround.js:143-158 | distinct selectable languages get distinct judge ids |
| LanguageTables.DefaultProgram | src/Components/PlayGround/PlayGround.js:72-87 | the language effect's if-chain installs the starter program listed for the language, and the empty body exactly for a language outside the five |
| LanguageTables.DefaultProgramIdentifiesLanguage | src/Components/PlayGround/Language/Default.js:1-35 | the five starter programs are pairwise different |
| SessionModel.TopicName | src/Components/PlayGround/PlayGround.js:104-125 | every topic name is an "update..." event name |
| SessionModel.TopicNamesDistinct | src/Components/PlayGround/PlayGround.js:104-125 | the five topics have five different event names |
| SessionModel.StepWritesOnly | src/Components/PlayGround/PlayGround.js:234-289 | no handler changes a field outside its write set |
| SessionModel.RemoteWritesOnlySharedFields | src/Components/PlayGround/PlayGround.js:103-125 | a remote handler writes only shared fields: never the outbox, the posts, the run state, the loader or the preferences |
| SessionModel.StepOutbox | src/Components/PlayGround/PlayGround.js:206-270 | each handler appends to the outbox exactly the messages of its event: one per local edit and per result, none otherwise |
| SessionModel.LocalEditEffect | src/Components/PlayGround/PlayGround.js:234-270 | a local edit sets its field to the new value, appends exactly one message on its topic, and posts nothing |
| SessionModel.LanguageChangeResetsBody | src/Components/PlayGround/PlayGround.js:72-87 | after a local or remote language change the language is the new value; if it changed, the body is that language's starter program ("" for an unknown language) |
| SessionModel.RemoteApplyEffect | src/Components/PlayGround/PlayGround.js:103-125 | a remote update assigns its field and leaves the outbox, posts, run state and loader alone; an empty or unparsable rich-text payload leaves the document unchanged |
| SessionModel.PreferencesAreLocal | src/Components/PlayGround/PlayGround.js:281-289 | theme change, font-size change and file upload each change one field and emit nothing |
| SessionModel.SubmissionRequest | src/Components/PlayGround/PlayGround.js:166-182 | a request exists exactly when both the input and the body encode; it carries the language's judge id and the two encodings |
| SessionModel.SubmitGuard | src/Components/PlayGround/PlayGround.js:160-183 | Run shows the loader; while running nothing else changes; otherwise the state becomes running; one request goes out with the language's judge id and the encoded body and input when both encode, and nothing else changes when either fails |
| SessionModel.ResultHandling | src/Components/PlayGround/PlayGround.js:206-218 | the output becomes the decoded stdout when the status is "Accepted" and the decoded compile output otherwise; the same text is emitted on updateOutput; the loader is hidden; the state is DONE |
| SessionModel.FailureAllowsResubmit | src/Components/PlayGround/PlayGround.js:220-231 | a request failure hides the loader and records the error, which is not running; the next Run starts a new run, and it posts a request exactly when the body and input encode |
| Collaboration.RunAppend | src/Components/PlayGround/PlayGround.js:234-289 | running two traces one after the other is running their concatenation |
| Collaboration.RunOutbox | src/Components/PlayGround/PlayGround.js:234-270 | after any trace the outbox is the old outbox followed by each event's messages in order |
| Collaboration.RunWritesOnly | src/Components/PlayGround/PlayGround.js:234-289 | a trace changes no field that none of its events writes |
| Collaboration.RemoteTraceWrites | src/Components/PlayGround/PlayGround.js:103-125 | a trace of remote updates writes only shared fields and emits nothing |
| Collaboration.RemoteTraceIsEchoFree | src/Components/PlayGround/PlayGround.js:103-125 | any sequence of remote updates leaves the outbox, the posts, the run state, the loader, the theme and the font size unchanged |
| Collaboration.EmitsOfLocalEdits | src/Components/PlayGround/PlayGround.js:234-270 | a trace of local edits emits one message per edit, the i-th being the i-th edit's broadcast |
| Collaboration.LocalTraceEmitsEveryEdit | src/Components/PlayGround/PlayGround.js:234-270 | edits are never coalesced: n local edits append exactly n messages, in order, each with its edit's value |
| Collaboration.SingleSubmissionInFlight | src/Components/PlayGround/PlayGround.js:160-231 | over any trace, requests posted are at most round trips ended plus the change in the running flag |
| Collaboration.MountedRunsOneAtATime | src/Components/PlayGround/PlayGround.js:160-231 | from mount, over any trace, the component has posted at most one request more than the round trips that ended |
| Collaboration.UnencodableRunIsStuck | src/Components/PlayGround/PlayGround.js:160-168 | a Run whose body or input does not encode leaves the state running with no request, and any later Runs without a response post nothing |
| Collaboration.PostsOnlyGrow | src/Components/PlayGround/PlayGround.js:178-186 | no trace removes a posted request |
| Collaboration.RepeatedRunPostsOnce | src/Components/PlayGround/PlayGround.js:160-166 | any number of Run clicks with no response in between post at most one request, and none if a run was in flight |
| Collaboration.Deliver | src/Components/PlayGround/PlayGround.js:103-125 | a relayed message runs the subscription of its own topic, with the message's value as the received payload |
| Collaboration.DeliverInvertsSubscription | src/Components/PlayGround/PlayGround.js:103-125 | relaying a remote event's own topic and payload gives back that event: every subscription is reached by its topic |
| Collaboration.DeliverBroadcast | src/Components/PlayGround/PlayGround.js:234-270 | a local edit's message is handled at the peer by the subscription of the same field with the same value (the rich text serialised) |
| Collaboration.DeliverAll | src/Components/PlayGround/PlayGround.js:103-125 | relaying a list of messages runs their remote handlers one for one, in order |
| Collaboration.PeerNeverEchoes | src/Components/PlayGround/PlayGround.js:103-125 | a peer applying any relayed messages emits and posts nothing, so a message makes at most one trip |
| Collaboration.StepConverges | src/Components/PlayGround/PlayGround.js:104-125 | a peer in sync that receives what one shared event emits stays in sync |
| Collaboration.PeersConverge | src/Components/PlayGround/PlayGround.js:234-270 | two participants in sync stay in sync on body, input, output, language and rich text when one receives everything the other emits while editing, picking languages and running code; the receiver sends nothing back |
| Collaboration.UploadIsNotShared | src/Components/PlayGround/PlayGround.js:281-289 | a file upload emits nothing and puts an in-sync peer out of sync |
| PlayGroundComponent.PlayGround.constructor | src/Components/PlayGround/PlayGround.js:53-70 | mounting gives the stored language and theme or "c" and "monokai", font size 12, idle, no loader, empty outbox, and the body installed by the language effect |
| PlayGroundComponent.PlayGround.LanguageEffect | src/Components/PlayGround/PlayGround.js:72-87 | the effect sets the body to the language's starter program, or "" for an unknown language; nothing else changes |
| PlayGroundComponent.PlayGround.ApplyLanguage | src/Components/PlayGround/PlayGround.js:112-114 | setting the language re-runs the effect only if the value changed |
| PlayGroundComponent.PlayGround.HandleUpdateBody | src/Components/PlayGround/PlayGround.js:234-237 | has exactly the effect `Step` gives a body edit |
| PlayGroundComponent.PlayGround.OnEditorStateChange | src/Components/PlayGround/PlayGround.js:239-250 | has exactly the effect `Step` gives a rich-text edit, emitting the serialised document |
| PlayGroundComponent.PlayGround.HandleUpdateInput | src/Components/PlayGround/PlayGround.js:252-255 | has exactly the effect `Step` gives an input edit |
| PlayGroundComponent.PlayGround.HandleUpdateOutput | src/Components/PlayGround/PlayGround.js:257-260 | has exactly the effect `Step` gives an output edit |
| PlayGroundComponent.PlayGround.HandleLanguage | src/Components/PlayGround/PlayGround.js:262-270 | has exactly the effect `Step` gives a language pick: set the language, run the effect if it changed, emit once |
| PlayGroundComponent.PlayGround.ChangeTheme | src/Components/PlayGround/PlayGround.js:402-407 | sets the theme only |
| PlayGroundComponent.PlayGround.ChangeFontSize | src/Components/PlayGround/PlayGround.js:440-442 | sets the font size to the selected text, unvalidated |
| PlayGroundComponent.PlayGround.ShowFile | src/Components/PlayGround/PlayGround.js:281-289 | replaces the body with the file's text and emits nothing |
| PlayGroundComponent.PlayGround.OnUpdateBody | src/Components/PlayGround/PlayGround.js:104-106 | sets the body only |
| PlayGroundComponent.PlayGround.OnUpdateInput | src/Components/PlayGround/PlayGround.js:108-110 | sets the input only |
| PlayGroundComponent.PlayGround.OnUpdateLanguage | src/Components/PlayGround/PlayGround.js:112-114 | sets the language and runs the effect if it changed; emits nothing |
| PlayGroundComponent.PlayGround.OnUpdateOutput | src/Components/PlayGround/PlayGround.js:116-118 | sets the output only |
| PlayGroundComponent.PlayGround.OnUpdateRichText | src/Components/PlayGround/PlayGround.js:120-125 | installs the parsed document for a non-empty payload that parses; otherwise nothing changes |
| PlayGroundComponent.PlayGround.SubmitHandler | src/Components/PlayGround/PlayGround.js:160-183 | has exactly the effect `Step` gives Run: loader on, guard, running, then one request unless an encoding throws |
| PlayGroundComponent.PlayGround.OnRequestError | src/Components/PlayGround/PlayGround.js:220-231 | hides the loader and records the error |
| PlayGroundComponent.PlayGround.OnResult | src/Components/PlayGround/PlayGround.js:206-219 | decodes stdout or compile output by status, emits and shows it, hides the loader, sets DONE |

## Left out

- Rendering is not modelled: JSX, icons, styling, toasts and the loader widget (PlayGround.js:297-626). `RichEditor/Draft.js` and `App.js` only render third-party components.
- HTTP transport is not modelled: URLs, headers and the API key. The token returned by a successful POST and the 5000 ms timer before the GET are also left out.
- The judge round trip is modelled as three events: Run, result and error. A successful POST response changes no state and is not an event.
- An exception thrown inside the result handler would take the error path. The model's decoder is total, so that case appears only as the error event.
- Debounce timing is not modelled. In the source each local edit's emit fires once, 100 ms after the edit, on the trailing edge of its own debounce wrapper. The model appends it to the outbox at once.
- The order of emits is therefore not fully captured. The result handler emits immediately, so in the source a result can overtake a local emit made less than 100 ms earlier. The model keeps the order of the handler calls.
- Where the language select's value is read is not captured. `handleLanguage` reads `event.target.value` when its delayed callback fires, so two picks within 100 ms both emit the later language. The model emits each pick's own value.
- The socket.io transport and subscription lifecycle are not modelled. The cleanup at PlayGround.js:127-140 passes fresh closures to `socket.off`, so it would not detach the registered handlers, and it never touches `updateRichText`. Remote events are therefore always possible in the model.
- The relay server is not part of this model. The remote handlers assign the argument they receive, and the model assumes it is the emitted `value` string.
- base64, draft-js conversion, and `JSON.parse` / `JSON.stringify` are foreign calls, kept as uninterpreted parameters. The convergence of rich text is proved only for documents that survive their own serialisation (`Collaboration.RoundTrips`). That assumption treats a document as its content alone: the serialisation drops the selection and undo history, and `createWithContent` starts them afresh, so a real editor state round-trips only up to those.
- Persisting language and theme in `localStorage` (PlayGround.js:94-100) is left out. Only the stored values read at mount are modelled, as parameters.
- Clipboard copy, the Blob download (`handleDownloadForIDE`) and the click on the hidden file input are browser I/O. They change no session state.
- React's stale-closure race is left out: two clicks in one render could both see "Idle". The model is sequential, one handler at a time.
- LanguageTables.EditorMode: keys inherited by every JavaScript object are not modelled. For a language string such as "constructor" or "toString", the source's lookup returns an `Object.prototype` member; the model returns no mode. Such a string can arrive unvalidated, from storage or a remote `updateLanguage`. The lookup only feeds the code editor's mode prop.
- `fontSize` is modelled as text, starting at "12". The source starts with the number 12 and then stores the select's string value.
