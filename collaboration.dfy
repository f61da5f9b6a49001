/** Sequences of handler runs on one participant, and two participants
    connected by the relay: what a trace emits, that applying remote updates
    never echoes, that at most one judge request is in flight, and that a
    peer that receives every message ends up showing the same shared fields. */
module Collaboration {
  import opened Wrappers
  import opened LanguageTables
  import opened SessionModel

  /** The session after running the handlers of `evs` in order. */
  function Run<Doc>(io: Foreign<Doc>, s: Session<Doc>, evs: seq<Event<Doc>>): Session<Doc>
    decreases |evs|
  {
    if evs == [] then s else Run(io, Step(io, s, evs[0]), evs[1..])
  }

  /** The messages the events of `evs` emit, in order. */
  function Emits<Doc>(io: Foreign<Doc>, evs: seq<Event<Doc>>): seq<Emit>
    decreases |evs|
  {
    if evs == [] then [] else Emitted(io, evs[0]) + Emits(io, evs[1..])
  }

  /** The fields any event of `evs` may write. */
  function WritesAll<Doc>(evs: seq<Event<Doc>>): set<Field>
    decreases |evs|
  {
    if evs == [] then {} else Writes(evs[0]) + WritesAll(evs[1..])
  }

  /** How many judge round trips end in `evs`. */
  function Responses<Doc>(evs: seq<Event<Doc>>): nat
    decreases |evs|
  {
    if evs == [] then 0 else (if evs[0].IsResponse() then 1 else 0) + Responses(evs[1..])
  }

  /** 1 while the submission state is "running" (Run is disabled), 0
      otherwise. A run whose encoding threw is "running" with no request in
      flight. */
  function Busy<Doc>(s: Session<Doc>): nat {
    if s.submission == Running then 1 else 0
  }

  lemma {:induction false} RunAppend<Doc>(io: Foreign<Doc>, s: Session<Doc>, xs: seq<Event<Doc>>, ys: seq<Event<Doc>>)
    ensures Run(io, s, xs + ys) == Run(io, Run(io, s, xs), ys)
    decreases |xs|
  {
    if xs == [] {
      assert xs + ys == ys;
    } else {
      assert xs + ys != [] && (xs + ys)[0] == xs[0];
      assert (xs + ys)[1..] == xs[1..] + ys;
      RunAppend(io, Step(io, s, xs[0]), xs[1..], ys);
    }
  }

  /** The outbox after a trace is the old outbox followed by what each event
      emits; nothing is coalesced or dropped. */
  lemma {:induction false} RunOutbox<Doc>(io: Foreign<Doc>, s: Session<Doc>, evs: seq<Event<Doc>>)
    ensures Run(io, s, evs).outbox == s.outbox + Emits(io, evs)
    decreases |evs|
  {
    if evs != [] {
      StepOutbox(io, s, evs[0]);
      RunOutbox(io, Step(io, s, evs[0]), evs[1..]);
    }
  }

  /** A trace changes no field that none of its events writes. */
  lemma {:induction false} RunWritesOnly<Doc>(io: Foreign<Doc>, s: Session<Doc>, evs: seq<Event<Doc>>)
    ensures SameExcept(s, Run(io, s, evs), WritesAll(evs))
    decreases |evs|
  {
    if evs != [] {
      var t := Step(io, s, evs[0]);
      StepWritesOnly(io, s, evs[0]);
      RunWritesOnly(io, t, evs[1..]);
      forall f | f !in WritesAll(evs) ensures Agree(s, Run(io, s, evs), f) {
        assert Agree(s, t, f) && Agree(t, Run(io, t, evs[1..]), f);
      }
    }
  }

  lemma {:induction false} RemoteTraceWrites<Doc>(io: Foreign<Doc>, evs: seq<Event<Doc>>)
    requires forall i :: 0 <= i < |evs| ==> evs[i].IsRemote()
    ensures WritesAll(evs) <= {Body, Input, Output, Language, RichText}
    ensures Emits(io, evs) == []
    decreases |evs|
  {
    if evs != [] {
      RemoteWritesOnlySharedFields(evs[0]);
      RemoteTraceWrites(io, evs[1..]);
    }
  }

  /** No echo: however many remote updates a participant applies, it emits
      nothing, posts nothing, and its run state, loader, theme and font size
      stay as they were. */
  lemma {:induction false} RemoteTraceIsEchoFree<Doc>(io: Foreign<Doc>, s: Session<Doc>, evs: seq<Event<Doc>>)
    requires forall i :: 0 <= i < |evs| ==> evs[i].IsRemote()
    ensures var t := Run(io, s, evs);
      && t.outbox == s.outbox && t.posts == s.posts
      && t.submission == s.submission && t.loader == s.loader
      && t.theme == s.theme && t.fontSize == s.fontSize
  {
    RemoteTraceWrites(io, evs);
    RunOutbox(io, s, evs);
    RunWritesOnly(io, s, evs);
    var t := Run(io, s, evs);
    assert Agree(s, t, Posts) && Agree(s, t, SubmissionState) && Agree(s, t, Loader);
    assert Agree(s, t, Theme) && Agree(s, t, FontSize);
  }

  /** One message per local edit, in edit order, each carrying that edit's
      own value: a run of edits inside one debounce window is not coalesced. */
  lemma {:induction false} LocalTraceEmitsEveryEdit<Doc>(io: Foreign<Doc>, s: Session<Doc>, evs: seq<Event<Doc>>)
    requires forall i :: 0 <= i < |evs| ==> evs[i].IsLocalEdit()
    ensures var out := Run(io, s, evs).outbox;
      && |out| == |s.outbox| + |evs|
      && out[..|s.outbox|] == s.outbox
      && forall i :: 0 <= i < |evs| ==> out[|s.outbox| + i] == Broadcast(io, evs[i])
  {
    RunOutbox(io, s, evs);
    EmitsOfLocalEdits(io, evs);
  }

  lemma {:induction false} EmitsOfLocalEdits<Doc>(io: Foreign<Doc>, evs: seq<Event<Doc>>)
    requires forall i :: 0 <= i < |evs| ==> evs[i].IsLocalEdit()
    ensures |Emits(io, evs)| == |evs|
    ensures forall i :: 0 <= i < |evs| ==> Emits(io, evs)[i] == Broadcast(io, evs[i])
    decreases |evs|
  {
    if evs != [] {
      EmitsOfLocalEdits(io, evs[1..]);
      forall i | 0 < i < |evs| ensures Emits(io, evs)[i] == Broadcast(io, evs[i]) {
        assert evs[1..][i - 1] == evs[i];
      }
    }
  }

  /** At most one judge request in flight: over any trace, the requests
      posted never exceed the round trips that ended plus the change in the
      busy flag. */
  lemma {:induction false} SingleSubmissionInFlight<Doc>(io: Foreign<Doc>, s: Session<Doc>, evs: seq<Event<Doc>>)
    ensures |Run(io, s, evs).posts| - |s.posts| <= Responses(evs) + Busy(Run(io, s, evs)) - Busy(s)
    decreases |evs|
  {
    if evs != [] {
      var t := Step(io, s, evs[0]);
      StepWritesOnly(io, s, evs[0]);
      assert |t.posts| - |s.posts| <= (if evs[0].IsResponse() then 1 else 0) + Busy(t) - Busy(s) by {
        if !evs[0].Submit? && !evs[0].IsResponse() {
          assert Agree(s, t, Posts) && Agree(s, t, SubmissionState);
        }
      }
      SingleSubmissionInFlight(io, t, evs[1..]);
    }
  }

  /** From mount, over any trace, the component has posted at most one
      request more than the judge round trips that ended. */
  lemma MountedRunsOneAtATime<Doc>(io: Foreign<Doc>, storedLanguage: Option<string>, storedTheme: Option<string>, evs: seq<Event<Doc>>)
    ensures |Run(io, Init(io, storedLanguage, storedTheme), evs).posts| <= Responses(evs) + 1
  {
    SingleSubmissionInFlight(io, Init(io, storedLanguage, storedTheme), evs);
  }

  /** Clicking Run any number of times with no judge response in between
      posts at most one request, and none at all if a run was already in
      flight. */
  lemma RepeatedRunPostsOnce<Doc>(io: Foreign<Doc>, s: Session<Doc>, evs: seq<Event<Doc>>)
    requires Responses(evs) == 0
    ensures |Run(io, s, evs).posts| <= |s.posts| + 1
    ensures s.submission == Running ==> |Run(io, s, evs).posts| <= |s.posts|
  {
    SingleSubmissionInFlight(io, s, evs);
  }

  /** A Run whose body or input does not encode is stuck: the state is
      "running" with no request posted, so no response will ever come, and
      every later Run returns at the guard. */
  lemma UnencodableRunIsStuck<Doc>(io: Foreign<Doc>, s: Session<Doc>, evs: seq<Event<Doc>>)
    requires s.submission != Running
    requires io.encode(s.input).None? || io.encode(s.roomBody).None?
    requires Responses(evs) == 0
    ensures var t := Step(io, s, Submit);
      && t.submission == Running && t.posts == s.posts
      && |Run(io, t, evs).posts| == |s.posts|
  {
    var t := Step(io, s, Submit);
    SingleSubmissionInFlight(io, t, evs);
    PostsOnlyGrow(io, t, evs);
  }

  lemma {:induction false} PostsOnlyGrow<Doc>(io: Foreign<Doc>, s: Session<Doc>, evs: seq<Event<Doc>>)
    ensures s.posts <= Run(io, s, evs).posts
    decreases |evs|
  {
    if evs != [] {
      PostsOnlyGrow(io, Step(io, s, evs[0]), evs[1..]);
    }
  }

  // ---------------------------------------------------------------------
  // Two participants.

  /** The handler a receiving participant runs for a relayed message. */
  function Deliver<Doc>(m: Emit): (e: Event<Doc>)
    ensures e.IsRemote() && Subscription(e) == m.topic && RemotePayload(e) == m.value
  {
    match m.topic
    case UpdateBody => RemoteBody(m.value)
    case UpdateInput => RemoteInput(m.value)
    case UpdateLanguage => RemoteLanguage(m.value)
    case UpdateOutput => RemoteOutput(m.value)
    case UpdateRichText => RemoteRichText(m.value)
  }

  /** Relaying is the inverse of reading a remote event's topic and payload:
      every subscription is reached by its own topic with its own payload. */
  lemma DeliverInvertsSubscription<Doc>(e: Event<Doc>)
    requires e.IsRemote()
    ensures Deliver(Emit(Subscription(e), RemotePayload(e))) == e
  {
  }

  /** A local edit's message is handled, at the peer, by the subscription of
      the same field with the same value (the rich text in serialised form). */
  lemma DeliverBroadcast<Doc>(io: Foreign<Doc>, e: Event<Doc>)
    requires e.IsLocalEdit()
    ensures var r: Event<Doc> := Deliver(Broadcast(io, e));
      && (e.EditBody? ==> r == RemoteBody(e.value))
      && (e.EditInput? ==> r == RemoteInput(e.value))
      && (e.EditOutput? ==> r == RemoteOutput(e.value))
      && (e.PickLanguage? ==> r == RemoteLanguage(e.value))
      && (e.EditRichText? ==> r == RemoteRichText(io.toRaw(e.doc)))
  {
  }

  function DeliverAll<Doc>(ms: seq<Emit>): (evs: seq<Event<Doc>>)
    ensures |evs| == |ms|
    ensures forall i :: 0 <= i < |ms| ==> evs[i] == Deliver(ms[i])
    decreases |ms|
  {
    if ms == [] then [] else [Deliver(ms[0])] + DeliverAll(ms[1..])
  }

  /** A message is relayed at most once: the peer applying any sequence of
      relayed messages sends nothing back. */
  lemma PeerNeverEchoes<Doc>(io: Foreign<Doc>, b: Session<Doc>, ms: seq<Emit>)
    ensures Run(io, b, DeliverAll(ms)).outbox == b.outbox
    ensures Run(io, b, DeliverAll(ms)).posts == b.posts
  {
    RemoteTraceIsEchoFree(io, b, DeliverAll(ms));
  }

  /** Two participants show the same body, input, output, language and rich
      text. */
  ghost predicate InSync<Doc>(a: Session<Doc>, b: Session<Doc>) {
    && a.roomBody == b.roomBody && a.input == b.input && a.output == b.output
    && a.language == b.language && a.editorState == b.editorState
  }

  /** The rich-text document survives its own serialisation. */
  ghost predicate RoundTrips<Doc>(io: Foreign<Doc>, d: Doc) {
    io.toRaw(d) != "" && io.fromRaw(io.toRaw(d)) == Some(d)
  }

  /** An event of the sending participant whose effect on the shared fields
      is carried by what it emits: anything but a remote update and a file
      upload, with a rich-text edit whose document survives serialisation. */
  ghost predicate Shared<Doc>(io: Foreign<Doc>, e: Event<Doc>) {
    !e.IsRemote() && !e.UploadFile? && (e.EditRichText? ==> RoundTrips(io, e.doc))
  }

  lemma StepConverges<Doc>(io: Foreign<Doc>, a: Session<Doc>, b: Session<Doc>, e: Event<Doc>)
    requires InSync(a, b) && Shared(io, e)
    ensures InSync(Step(io, a, e), Run(io, b, DeliverAll(Emitted(io, e))))
  {
  }

  lemma DeliverAllAppend<Doc>(xs: seq<Emit>, ys: seq<Emit>)
    ensures DeliverAll<Doc>(xs + ys) == DeliverAll<Doc>(xs) + DeliverAll<Doc>(ys)
  {
  }

  /** Convergence: if two participants start in sync and the second one
      receives, in order, every message the first one emits while it edits,
      picks languages and runs code, both end up showing the same shared
      fields, and the second one has sent nothing back. */
  lemma {:induction false} PeersConverge<Doc>(io: Foreign<Doc>, a: Session<Doc>, b: Session<Doc>, evs: seq<Event<Doc>>)
    requires InSync(a, b)
    requires forall i :: 0 <= i < |evs| ==> Shared(io, evs[i])
    ensures InSync(Run(io, a, evs), Run(io, b, DeliverAll(Emits(io, evs))))
    ensures Run(io, b, DeliverAll(Emits(io, evs))).outbox == b.outbox
    decreases |evs|
  {
    PeerNeverEchoes(io, b, Emits(io, evs));
    if evs != [] {
      var a1 := Step(io, a, evs[0]);
      var first := DeliverAll<Doc>(Emitted(io, evs[0]));
      var b1 := Run(io, b, first);
      StepConverges(io, a, b, evs[0]);
      DeliverAllAppend<Doc>(Emitted(io, evs[0]), Emits(io, evs[1..]));
      RunAppend(io, b, first, DeliverAll(Emits(io, evs[1..])));
      PeersConverge(io, a1, b1, evs[1..]);
    }
  }

  /** A file upload replaces the body for the uploader alone: it emits
      nothing, so a peer that was in sync no longer is. */
  lemma UploadIsNotShared<Doc>(io: Foreign<Doc>, a: Session<Doc>, b: Session<Doc>, text: string)
    requires InSync(a, b) && text != a.roomBody
    ensures var e: Event<Doc> := UploadFile(text);
      Emitted(io, e) == [] && !InSync(Step(io, a, e), Run(io, b, DeliverAll(Emitted(io, e))))
  {
  }
}
