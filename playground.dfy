/** The playground component of one participant, as an object whose fields
    are its state variables. Each handler assigns fields and appends to the
    socket outbox step by step, and is proved to have exactly the effect
    `Step` gives it. */
module PlayGroundComponent {
  import opened Wrappers
  import opened LanguageTables
  import opened SessionModel

  class PlayGround<!Doc> {
    /** The foreign calls (base64, rich-text serialisation). */
    const io: Foreign<Doc>

    var roomBody: string
    var input: string
    var output: string
    var language: string
    var theme: string
    var fontSize: string
    var editorState: Doc
    var submissionState: Submission
    var loader: bool
    /** Every `socket.emit` so far, oldest first. */
    var outbox: seq<Emit>
    /** Every POST to the judge's submissions endpoint so far, oldest first. */
    var posts: seq<Request>

    /** The component's state as a value. */
    function State(): Session<Doc>
      reads this
    {
      Session(roomBody, input, output, language, theme, fontSize, editorState,
              submissionState, loader, outbox, posts)
    }

    /** Mounting: the state defaults, read from the stored preferences, then
        the language effect's first run. */
    constructor (io: Foreign<Doc>, storedLanguage: Option<string>, storedTheme: Option<string>)
      ensures this.io == io
      ensures State() == Init(io, storedLanguage, storedTheme)
    {
      this.io := io;
      roomBody, input, output := "", "", "";
      language := storedLanguage.GetOr("c");
      theme := storedTheme.GetOr("monokai");
      fontSize := "12";
      submissionState, loader := Idle, false;
      editorState := io.emptyDoc;
      outbox, posts := [], [];
      new;
      LanguageEffect();
    }

    /** The effect keyed on the language: install its starter program. */
    method LanguageEffect()
      modifies this
      ensures State() == old(State()).(roomBody := DefaultProgram(language))
    {
      if language == "cpp" {
        roomBody := DefaultCode["cpp"];
      } else if language == "c" {
        roomBody := DefaultCode["c"];
      } else if language == "java" {
        roomBody := DefaultCode["java"];
      } else if language == "python" {
        roomBody := DefaultCode["python"];
      } else if language == "javascript" {
        roomBody := DefaultCode["javascript"];
      } else {
        roomBody := "";
      }
    }

    /** `setLanguage(value)`; React re-runs the language effect only if the
        value differs from the current one. */
    method ApplyLanguage(value: string)
      modifies this
      ensures State() == SetLanguage(old(State()), value)
    {
      if value != language {
        language := value;
        LanguageEffect();
      }
    }

    // Local edits: assign the field, then publish once on its topic.

    method HandleUpdateBody(value: string)
      modifies this
      ensures State() == Step(io, old(State()), EditBody(value))
    {
      roomBody := value;
      outbox := outbox + [Emit(UpdateBody, value)];
    }

    method OnEditorStateChange(doc: Doc)
      modifies this
      ensures State() == Step(io, old(State()), EditRichText(doc))
    {
      editorState := doc;
      var contentRaw := io.toRaw(doc);
      outbox := outbox + [Emit(UpdateRichText, contentRaw)];
    }

    method HandleUpdateInput(value: string)
      modifies this
      ensures State() == Step(io, old(State()), EditInput(value))
    {
      input := value;
      outbox := outbox + [Emit(UpdateInput, value)];
    }

    method HandleUpdateOutput(value: string)
      modifies this
      ensures State() == Step(io, old(State()), EditOutput(value))
    {
      output := value;
      outbox := outbox + [Emit(UpdateOutput, value)];
    }

    method HandleLanguage(value: string)
      modifies this
      ensures State() == Step(io, old(State()), PickLanguage(value))
    {
      ghost var before := State();
      ApplyLanguage(value);
      outbox := outbox + [Emit(UpdateLanguage, value)];
      assert State() == SetLanguage(before, value).(outbox := before.outbox + [Emit(UpdateLanguage, value)]);
    }

    // Local-only changes.

    method ChangeTheme(value: string)
      modifies this
      ensures State() == Step(io, old(State()), PickTheme(value))
    {
      theme := value;
    }

    method ChangeFontSize(value: string)
      modifies this
      ensures State() == Step(io, old(State()), PickFontSize(value))
    {
      fontSize := value;
    }

    /** The file reader's text replaces the body; nothing is published. */
    method ShowFile(text: string)
      modifies this
      ensures State() == Step(io, old(State()), UploadFile(text))
    {
      roomBody := text;
    }

    // Remote updates: assign the field, publish nothing.

    method OnUpdateBody(value: string)
      modifies this
      ensures State() == Step(io, old(State()), RemoteBody(value))
    {
      roomBody := value;
    }

    method OnUpdateInput(value: string)
      modifies this
      ensures State() == Step(io, old(State()), RemoteInput(value))
    {
      input := value;
    }

    method OnUpdateLanguage(value: string)
      modifies this
      ensures State() == Step(io, old(State()), RemoteLanguage(value))
    {
      ApplyLanguage(value);
    }

    method OnUpdateOutput(value: string)
      modifies this
      ensures State() == Step(io, old(State()), RemoteOutput(value))
    {
      output := value;
    }

    /** An empty payload is ignored; one that does not parse throws before
        anything is assigned. */
    method OnUpdateRichText(storeRaw: string)
      modifies this
      ensures State() == Step(io, old(State()), RemoteRichText(storeRaw))
    {
      if storeRaw != "" {
        var parsed := io.fromRaw(storeRaw);
        if parsed.Some? {
          editorState := parsed.value;
        }
      }
    }

    // Running code.

    /** Show the loader; unless a run is in flight, mark it running and post
        the current language's id with the encoded input and body. An
        encoding that throws ends the handler with the run marked running
        and nothing posted. */
    method SubmitHandler()
      modifies this
      ensures State() == Step(io, old(State()), Submit)
    {
      loader := true;
      if submissionState == Running {
        return;
      }
      submissionState := Running;
      var languageCode := JudgeId(language);
      var encodedInput := io.encode(input);
      if encodedInput.None? {
        return;
      }
      var encodedBody := io.encode(roomBody);
      if encodedBody.None? {
        return;
      }
      posts := posts + [Request(languageCode, encodedBody.value, encodedInput.value)];
    }

    /** The POST or the later GET was rejected with `error`. */
    method OnRequestError(error: string)
      modifies this
      ensures State() == Step(io, old(State()), RequestFailed(error))
    {
      loader := false;
      submissionState := Failed(error);
    }

    /** The GET returned the submission's status and base64 outputs. */
    method OnResult(status: string, stdout: string, compileOutput: string)
      modifies this
      ensures State() == Step(io, old(State()), ResultArrived(status, stdout, compileOutput))
    {
      var decoded: string;
      if status == "Accepted" {
        decoded := io.decode(stdout);
      } else {
        decoded := io.decode(compileOutput);
      }
      outbox := outbox + [Emit(UpdateOutput, decoded)];
      output := decoded;
      loader := false;
      submissionState := Done;
    }
  }

  /** A fresh playground with no stored preferences: two clicks on Run post
      one request for C (id 49), and an accepted result shows the decoded
      stdout and publishes it. */
  method RunTwiceThenAccept<Doc>(io: Foreign<Doc>, stdout: string)
    requires io.encode(DefaultCode["c"]).Some? && io.encode("").Some?
  {
    var p := new PlayGround(io, None, None);
    assert p.language == "c" && p.roomBody == DefaultCode["c"];
    p.SubmitHandler();
    p.SubmitHandler();
    assert p.posts == [Request(49, io.encode(DefaultCode["c"]).value, io.encode("").value)];
    assert p.submissionState == Running && p.loader;
    p.OnResult("Accepted", stdout, "");
    assert p.output == io.decode(stdout) && p.outbox == [Emit(UpdateOutput, io.decode(stdout))];
    assert p.submissionState == Done && !p.loader;
    p.SubmitHandler();
    assert |p.posts| == 2;
  }
}
