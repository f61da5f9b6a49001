/** The shared state of one participant's playground and what each event
    handler does to it, as values. A session is the component's state
    variables together with the socket outbox and the judge requests issued
    so far; `Step` is the effect of one handler run to completion (including
    the language effect it triggers). */
module SessionModel {
  import opened Wrappers
  import opened LanguageTables

  /** The socket topics, one per shared field. */
  datatype Topic = UpdateBody | UpdateInput | UpdateLanguage | UpdateOutput | UpdateRichText

  /** The event name a topic is emitted and subscribed under. */
  function TopicName(t: Topic): (name: string)
    ensures |name| > 6 && name[..6] == "update"
  {
    match t
    case UpdateBody => "updateBody"
    case UpdateInput => "updateInput"
    case UpdateLanguage => "updateLanguage"
    case UpdateOutput => "updateOutput"
    case UpdateRichText => "updateRichText"
  }

  lemma TopicNamesDistinct(t: Topic, u: Topic)
    requires TopicName(t) == TopicName(u)
    ensures t == u
  {
  }

  /** One `socket.emit(topic, { value })`. */
  datatype Emit = Emit(topic: Topic, value: string)

  /** The body of the POST to the judge's submissions endpoint; the source
      and the stdin are base64-encoded. */
  datatype Request = Request(languageId: int, sourceCode: string, stdin: string)

  /** The submission state: "Idle", "running", "DONE", or the error object a
      failed request was rejected with. */
  datatype Submission = Idle | Running | Done | Failed(error: string)

  /** The foreign calls the component makes, left uninterpreted: base64
      encoding, which yields `None` where it throws (the text holds a
      character above U+00FF), base64 decoding, `EditorState.createEmpty()`, the serialisation
      `JSON.stringify(convertToRaw(editorState.getCurrentContent()))` of an editor state, and
      `EditorState.createWithContent(convertFromRaw(JSON.parse(...)))`, which yields `None`
      where the parse or the conversion throws. */
  datatype Foreign<!Doc> = Foreign(
    encode: string -> Option<string>,
    decode: string -> string,
    emptyDoc: Doc,
    toRaw: Doc -> string,
    fromRaw: string -> Option<Doc>)

  /** The component's state variables, plus the messages it has emitted on
      the socket and the requests it has posted to the judge, oldest first. */
  datatype Session<Doc> = Session(
    roomBody: string,
    input: string,
    output: string,
    language: string,
    theme: string,
    fontSize: string,
    editorState: Doc,
    submission: Submission,
    loader: bool,
    outbox: seq<Emit>,
    posts: seq<Request>)

  /** Everything that can happen to a participant: a local edit, a local
      preference change, a file upload, a message arriving on one of the five
      topics, a click on Run, and the two ways the judge round trip ends. */
  datatype Event<Doc> =
    | EditBody(value: string)
    | EditRichText(doc: Doc)
    | EditInput(value: string)
    | EditOutput(value: string)
    | PickLanguage(value: string)
    | PickTheme(value: string)
    | PickFontSize(value: string)
    | UploadFile(text: string)
    | RemoteBody(value: string)
    | RemoteInput(value: string)
    | RemoteLanguage(value: string)
    | RemoteOutput(value: string)
    | RemoteRichText(raw: string)
    | Submit
    | RequestFailed(error: string)
    | ResultArrived(status: string, stdout: string, compileOutput: string)
  {
    /** The five handlers that publish what the user changed. */
    predicate IsLocalEdit() {
      EditBody? || EditRichText? || EditInput? || EditOutput? || PickLanguage?
    }

    /** The five socket subscriptions. */
    predicate IsRemote() {
      RemoteBody? || RemoteInput? || RemoteLanguage? || RemoteOutput? || RemoteRichText?
    }

    /** The end of a judge round trip, by success or failure. */
    predicate IsResponse() {
      RequestFailed? || ResultArrived?
    }
  }

  /** The topic whose subscription a remote event is. */
  function Subscription<Doc>(e: Event<Doc>): Topic
    requires e.IsRemote()
  {
    match e
    case RemoteBody(_) => UpdateBody
    case RemoteInput(_) => UpdateInput
    case RemoteLanguage(_) => UpdateLanguage
    case RemoteOutput(_) => UpdateOutput
    case RemoteRichText(_) => UpdateRichText
  }

  /** The text a remote event received. */
  function RemotePayload<Doc>(e: Event<Doc>): string
    requires e.IsRemote()
  {
    if e.RemoteRichText? then e.raw else e.value
  }

  /** The state once the component has mounted: the stored language and
      theme or the defaults "c" and "monokai", font size 12, an empty rich
      text, and the body the language effect installs on mount. */
  function Init<Doc>(io: Foreign<Doc>, storedLanguage: Option<string>, storedTheme: Option<string>): Session<Doc>
  {
    var language := storedLanguage.GetOr("c");
    Session(DefaultProgram(language), "", "", language, storedTheme.GetOr("monokai"), "12",
            io.emptyDoc, Idle, false, [], [])
  }

  /** `setLanguage(lang)` followed by the language effect, which React runs
      only when the language really changed. */
  function SetLanguage<Doc>(s: Session<Doc>, lang: string): Session<Doc>
  {
    if lang == s.language then s else s.(language := lang, roomBody := DefaultProgram(lang))
  }

  /** The text the result handler decodes: stdout for an accepted run, the
      compiler output otherwise. */
  function ResultText<Doc>(io: Foreign<Doc>, status: string, stdout: string, compileOutput: string): string
  {
    if status == "Accepted" then io.decode(stdout) else io.decode(compileOutput)
  }

  /** The request body Run builds from the session: the language's judge id
      and the base64 of the body and of the input; `None` when encoding
      either of them throws. */
  function SubmissionRequest<Doc>(io: Foreign<Doc>, s: Session<Doc>): (r: Option<Request>)
    ensures r.Some? <==> io.encode(s.input).Some? && io.encode(s.roomBody).Some?
    ensures r.Some? ==>
      && r.value.languageId == JudgeId(s.language)
      && Some(r.value.sourceCode) == io.encode(s.roomBody)
      && Some(r.value.stdin) == io.encode(s.input)
  {
    match io.encode(s.input)
    case None => None
    case Some(stdin) =>
      match io.encode(s.roomBody)
      case None => None
      case Some(source) => Some(Request(JudgeId(s.language), source, stdin))
  }

  /** The effect of one handler on the session. */
  function Step<Doc>(io: Foreign<Doc>, s: Session<Doc>, e: Event<Doc>): Session<Doc>
  {
    match e
    case EditBody(v) => s.(roomBody := v, outbox := s.outbox + [Emit(UpdateBody, v)])
    case EditRichText(d) => s.(editorState := d, outbox := s.outbox + [Emit(UpdateRichText, io.toRaw(d))])
    case EditInput(v) => s.(input := v, outbox := s.outbox + [Emit(UpdateInput, v)])
    case EditOutput(v) => s.(output := v, outbox := s.outbox + [Emit(UpdateOutput, v)])
    case PickLanguage(v) => SetLanguage(s, v).(outbox := s.outbox + [Emit(UpdateLanguage, v)])
    case PickTheme(v) => s.(theme := v)
    case PickFontSize(v) => s.(fontSize := v)
    case UploadFile(text) => s.(roomBody := text)
    case RemoteBody(v) => s.(roomBody := v)
    case RemoteInput(v) => s.(input := v)
    case RemoteLanguage(v) => SetLanguage(s, v)
    case RemoteOutput(v) => s.(output := v)
    case RemoteRichText(raw) =>
      if raw == "" then s
      else (match io.fromRaw(raw)
            case Some(d) => s.(editorState := d)
            case None => s)
    case Submit =>
      if s.submission == Running then s.(loader := true)
      else
        var started := s.(loader := true, submission := Running);
        (match SubmissionRequest(io, s)
         case Some(r) => started.(posts := s.posts + [r])
         case None => started)
    case RequestFailed(err) => s.(loader := false, submission := Failed(err))
    case ResultArrived(status, out, diag) =>
      var text := ResultText(io, status, out, diag);
      s.(output := text, outbox := s.outbox + [Emit(UpdateOutput, text)], loader := false, submission := Done)
  }

  // ---------------------------------------------------------------------
  // Frames: which parts of the session an event touches.

  datatype Field = Body | Input | Output | Language | Theme | FontSize | RichText
                 | SubmissionState | Loader | Outbox | Posts

  /** `s` and `t` hold the same value in field `f`. */
  ghost predicate Agree<Doc>(s: Session<Doc>, t: Session<Doc>, f: Field) {
    match f
    case Body => s.roomBody == t.roomBody
    case Input => s.input == t.input
    case Output => s.output == t.output
    case Language => s.language == t.language
    case Theme => s.theme == t.theme
    case FontSize => s.fontSize == t.fontSize
    case RichText => s.editorState == t.editorState
    case SubmissionState => s.submission == t.submission
    case Loader => s.loader == t.loader
    case Outbox => s.outbox == t.outbox
    case Posts => s.posts == t.posts
  }

  ghost predicate SameExcept<Doc>(s: Session<Doc>, t: Session<Doc>, fs: set<Field>) {
    forall f :: f !in fs ==> Agree(s, t, f)
  }

  /** The fields an event may write. */
  function Writes<Doc>(e: Event<Doc>): set<Field> {
    match e
    case EditBody(_) => {Body, Outbox}
    case EditRichText(_) => {RichText, Outbox}
    case EditInput(_) => {Input, Outbox}
    case EditOutput(_) => {Output, Outbox}
    case PickLanguage(_) => {Language, Body, Outbox}
    case PickTheme(_) => {Theme}
    case PickFontSize(_) => {FontSize}
    case UploadFile(_) => {Body}
    case RemoteBody(_) => {Body}
    case RemoteInput(_) => {Input}
    case RemoteLanguage(_) => {Language, Body}
    case RemoteOutput(_) => {Output}
    case RemoteRichText(_) => {RichText}
    case Submit => {Loader, SubmissionState, Posts}
    case RequestFailed(_) => {Loader, SubmissionState}
    case ResultArrived(_, _, _) => {Output, Outbox, Loader, SubmissionState}
  }

  /** No handler changes a field outside its write set. */
  lemma StepWritesOnly<Doc>(io: Foreign<Doc>, s: Session<Doc>, e: Event<Doc>)
    ensures SameExcept(s, Step(io, s, e), Writes(e))
  {
  }

  /** Applying a remote update never touches the outbox, the judge, the
      run state, the loader or the local preferences. */
  lemma RemoteWritesOnlySharedFields<Doc>(e: Event<Doc>)
    requires e.IsRemote()
    ensures Writes(e) <= {Body, Input, Output, Language, RichText}
  {
  }

  // ---------------------------------------------------------------------
  // What is emitted.

  /** The topic a local edit publishes on. */
  function TopicOf<Doc>(e: Event<Doc>): Topic
    requires e.IsLocalEdit()
  {
    match e
    case EditBody(_) => UpdateBody
    case EditRichText(_) => UpdateRichText
    case EditInput(_) => UpdateInput
    case EditOutput(_) => UpdateOutput
    case PickLanguage(_) => UpdateLanguage
  }

  /** The message a local edit publishes: its own value, the rich text in its
      serialised form. */
  function Broadcast<Doc>(io: Foreign<Doc>, e: Event<Doc>): Emit
    requires e.IsLocalEdit()
  {
    Emit(TopicOf(e), if e.EditRichText? then io.toRaw(e.doc) else e.value)
  }

  /** The messages an event emits, independent of the state it meets. */
  function Emitted<Doc>(io: Foreign<Doc>, e: Event<Doc>): seq<Emit> {
    if e.IsLocalEdit() then [Broadcast(io, e)]
    else if e.ResultArrived? then [Emit(UpdateOutput, ResultText(io, e.status, e.stdout, e.compileOutput))]
    else []
  }

  /** Every handler appends exactly what `Emitted` says to the outbox: one
      message per local edit and per result, none for anything else. */
  lemma StepOutbox<Doc>(io: Foreign<Doc>, s: Session<Doc>, e: Event<Doc>)
    ensures Step(io, s, e).outbox == s.outbox + Emitted(io, e)
    ensures |Emitted(io, e)| == (if e.IsLocalEdit() || e.ResultArrived? then 1 else 0)
  {
  }

  /** What a local edit does: its own field takes the new value (the
      language change also installs the new language's starter program) and
      one message carrying that value goes out on the field's topic. */
  lemma LocalEditEffect<Doc>(io: Foreign<Doc>, s: Session<Doc>, e: Event<Doc>)
    requires e.IsLocalEdit()
    ensures var t := Step(io, s, e);
      && t.outbox == s.outbox + [Broadcast(io, e)]
      && (e.EditBody? ==> t.roomBody == e.value)
      && (e.EditInput? ==> t.input == e.value)
      && (e.EditOutput? ==> t.output == e.value)
      && (e.EditRichText? ==> t.editorState == e.doc)
      && (e.PickLanguage? ==> t.language == e.value)
      && SameExcept(s, t, Writes(e))
      && Outbox in Writes(e) && Posts !in Writes(e) && SubmissionState !in Writes(e)
  {
    StepWritesOnly(io, s, e);
  }

  /** The language rule, for a local pick and for a remote update alike: the
      language takes the new value, and if it changed, the body becomes that
      language's starter program, which is empty for an unknown language. */
  lemma LanguageChangeResetsBody<Doc>(io: Foreign<Doc>, s: Session<Doc>, e: Event<Doc>)
    requires e.PickLanguage? || e.RemoteLanguage?
    ensures var t := Step(io, s, e);
      && t.language == e.value
      && t.roomBody == (if e.value == s.language then s.roomBody else DefaultProgram(e.value))
      && (e.value != s.language && !IsLanguage(e.value) ==> t.roomBody == "")
  {
  }

  /** The remote handlers assign their field and emit nothing; a rich-text
      payload that is empty or does not parse leaves the document as it was. */
  lemma RemoteApplyEffect<Doc>(io: Foreign<Doc>, s: Session<Doc>, e: Event<Doc>)
    requires e.IsRemote()
    ensures var t := Step(io, s, e);
      && t.outbox == s.outbox && t.posts == s.posts
      && t.submission == s.submission && t.loader == s.loader
      && (e.RemoteBody? ==> t.roomBody == e.value)
      && (e.RemoteInput? ==> t.input == e.value)
      && (e.RemoteOutput? ==> t.output == e.value)
      && (e.RemoteLanguage? ==> t.language == e.value)
      && (e.RemoteRichText? ==> t.editorState == (if e.raw != "" && io.fromRaw(e.raw).Some?
                                                  then io.fromRaw(e.raw).value else s.editorState))
  {
  }

  /** Theme, font size and file upload change one local field and publish
      nothing. */
  lemma PreferencesAreLocal<Doc>(io: Foreign<Doc>, s: Session<Doc>, e: Event<Doc>)
    requires e.PickTheme? || e.PickFontSize? || e.UploadFile?
    ensures var t := Step(io, s, e);
      && t.outbox == s.outbox && t.posts == s.posts
      && (e.PickTheme? ==> t.theme == e.value)
      && (e.PickFontSize? ==> t.fontSize == e.value)
      && (e.UploadFile? ==> t.roomBody == e.text)
      && SameExcept(s, t, Writes(e)) && |Writes(e)| == 1
  {
    StepWritesOnly(io, s, e);
  }

  // ---------------------------------------------------------------------
  // Running code on the judge.

  /** The run guard: Run always shows the loader; while a run is in flight it
      does nothing else. Otherwise the state becomes running, and one request
      goes out with the current language's judge id and the encoded body and
      input -- unless encoding throws, in which case the state is left
      running with no request behind it. */
  lemma SubmitGuard<Doc>(io: Foreign<Doc>, s: Session<Doc>)
    ensures var t := Step(io, s, Submit);
      && t.loader
      && t.outbox == s.outbox
      && (s.submission == Running ==> t == s.(loader := true))
      && (s.submission != Running ==>
            && t.submission == Running
            && (io.encode(s.input).Some? && io.encode(s.roomBody).Some? ==>
                  t.posts == s.posts + [Request(JudgeId(s.language), io.encode(s.roomBody).value, io.encode(s.input).value)])
            && (io.encode(s.input).None? || io.encode(s.roomBody).None? ==>
                  t == s.(loader := true, submission := Running)))
  {
  }

  /** A result: the output becomes the decoded stdout of an accepted run or
      the decoded compiler output of any other, the same text is published on
      updateOutput, the loader goes away and the state becomes DONE. */
  lemma ResultHandling<Doc>(io: Foreign<Doc>, s: Session<Doc>, status: string, stdout: string, compileOutput: string)
    ensures var t := Step(io, s, ResultArrived(status, stdout, compileOutput));
      && t.output == (if status == "Accepted" then io.decode(stdout) else io.decode(compileOutput))
      && t.outbox == s.outbox + [Emit(UpdateOutput, t.output)]
      && !t.loader && t.submission == Done
      && t.posts == s.posts
  {
  }

  /** A failure at either request step hides the loader and records the
      error, which is not "running", so the next click on Run starts a new
      run; it posts a request exactly when the body and the input encode. */
  lemma FailureAllowsResubmit<Doc>(io: Foreign<Doc>, s: Session<Doc>, err: string)
    ensures var t := Step(io, s, RequestFailed(err));
      && !t.loader && t.submission == Failed(err) && t.submission != Running
      && Step(io, t, Submit).submission == Running
      && ((|Step(io, t, Submit).posts| == |s.posts| + 1)
          <==> (io.encode(s.input).Some? && io.encode(s.roomBody).Some?))
  {
  }
}
