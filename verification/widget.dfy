/**
 The mounted widget seen from outside: a sequence of user and network events
 drives it. Clicks on a disabled button and typing into a disabled (or
 unrendered) textarea never reach a handler, so they leave the widget as it
 is; a network response settles the one outstanding request. The widget
 counts outstanding requests in `pending` so that single-flight can be stated
 and proved rather than assumed.
 */
module Widget {
  import opened Types
  import opened Endpoints
  import opened Composer
  import opened AuthGate

  datatype Event =
    | TypeText(text: string)
    | ClickSubmit
    | Respond(outcome: Outcome)
    | ClickCta(button: CtaButton)
    | IdentityChange(user: Option<User>)

  /** The configuration, the current user, the composer state, the number of
      requests sent and not yet settled, and every effect so far. */
  datatype Session = Session(cfg: Config, user: Option<User>, state: State, pending: nat, log: seq<Effect>)

  /** The single-flight invariant and its bookkeeping: at most one request
      outstanding, the in-flight flag raised exactly while it is, every sent
      request either settled or the outstanding one, one revalidation per
      success, and the state always the replay of the writes so far. */
  ghost predicate Inv(s: Session) {
    && s.pending <= 1
    && (s.state.isLoading <==> s.pending == 1)
    && |Sends(s.log)| == Settlements(s.log) + s.pending
    && Revalidations(s.log) == SuccessNotices(s.log)
    && Apply(Initial, s.log) == s.state
  }

  /** The widget as it mounts. */
  function Mount(cfg: Config, user: Option<User>): (r: Session)
    ensures Inv(r)
    ensures r.state == Initial && r.pending == 0 && r.log == []
  {
    Session(cfg, user, Initial, 0, [])
  }

  /** Records one transition's effects and adopts its state. */
  function Emit(s: Session, step: Step): Session {
    s.(state := step.state, log := s.log + step.effects)
  }

  /** Typing reaches the change handler only through a rendered, enabled textarea. */
  function OnType(s: Session, t: string): (r: Session)
    ensures r.cfg == s.cfg && r.user == s.user && r.pending == s.pending
    ensures s.log <= r.log
    ensures Gate(s.user).ComposerView? && !s.state.isLoading ==> r.state.body == t
    ensures Gate(s.user).CallToAction? || s.state.isLoading ==> r == s
  {
    if Gate(s.user).ComposerView? && !TextareaDisabled(s.state) then Emit(s, Input(s.state, t)) else s
  }

  /** A click on submit reaches the submit handler only through a rendered,
      enabled button; reaching it adds one outstanding request. */
  function OnSubmit(s: Session): (r: Session)
    ensures r.cfg == s.cfg && r.user == s.user
    ensures s.log <= r.log
    ensures Gate(s.user).CallToAction? || SubmitDisabled(s.state) ==> r == s
    ensures Gate(s.user).ComposerView? && !SubmitDisabled(s.state) ==>
      r.pending == s.pending + 1 && r.state == s.state.(isLoading := true)
  {
    if Gate(s.user).ComposerView? && !SubmitDisabled(s.state)
    then Emit(s, Start(s.cfg, s.state)).(pending := s.pending + 1)
    else s
  }

  /** The response to the outstanding request, if there is one, resumes the
      submit handler after its `await`. */
  function OnRespond(s: Session, o: Outcome): (r: Session)
    ensures r.cfg == s.cfg && r.user == s.user
    ensures s.log <= r.log
    ensures s.pending == 0 ==> r == s
    ensures s.pending > 0 ==> r.pending == s.pending - 1 && !r.state.isLoading
  {
    if s.pending > 0 then Emit(s, Settle(s.state, o)).(pending := s.pending - 1) else s
  }

  /** A call-to-action button, rendered only without a user, opens its modal. */
  function OnCta(s: Session, b: CtaButton): (r: Session)
    ensures r.cfg == s.cfg && r.user == s.user && r.state == s.state && r.pending == s.pending
    ensures s.user.None? ==> r.log == s.log + [Press(b)]
    ensures s.user.Some? ==> r == s
  {
    if Gate(s.user).CallToAction? then s.(log := s.log + [Press(b)]) else s
  }

  /** One event. */
  function Dispatch(s: Session, e: Event): (r: Session)
    ensures r.cfg == s.cfg
    ensures s.log <= r.log
    ensures !e.IdentityChange? ==> r.user == s.user
    ensures !e.Respond? && s.state.isLoading ==> r.state == s.state && r.pending == s.pending
  {
    match e
    case TypeText(t) => OnType(s, t)
    case ClickSubmit => OnSubmit(s)
    case Respond(o) => OnRespond(s, o)
    case ClickCta(b) => OnCta(s, b)
    case IdentityChange(u) => s.(user := u)
  }

  /** Events in order. */
  function Run(s: Session, evs: seq<Event>): (r: Session)
    ensures r.cfg == s.cfg
    ensures s.log <= r.log
    decreases |evs|
  {
    if evs == [] then s else Run(Dispatch(s, evs[0]), evs[1..])
  }

  /** How the bookkeeping of `Inv` moves when a transition is recorded. */
  lemma EmitAccounts(s: Session, step: Step)
    ensures Sends(Emit(s, step).log) == Sends(s.log) + Sends(step.effects)
    ensures Apply(Initial, Emit(s, step).log) == Apply(Apply(Initial, s.log), step.effects)
    ensures Revalidations(Emit(s, step).log) == Revalidations(s.log) + Revalidations(step.effects)
    ensures Settlements(Emit(s, step).log) == Settlements(s.log) + Settlements(step.effects)
    ensures SuccessNotices(Emit(s, step).log) == SuccessNotices(s.log) + SuccessNotices(step.effects)
  {
    SendsAppend(s.log, step.effects);
    ApplyAppend(Initial, s.log, step.effects);
  }

  lemma OnTypePreservesInv(s: Session, t: string)
    requires Inv(s)
    ensures Inv(OnType(s, t))
  {
    EmitAccounts(s, Input(s.state, t));
  }

  lemma OnSubmitPreservesInv(s: Session)
    requires Inv(s)
    ensures Inv(OnSubmit(s))
  {
    if Gate(s.user).ComposerView? && !SubmitDisabled(s.state) {
      EmitAccounts(s, Start(s.cfg, s.state));
    }
  }

  lemma OnRespondPreservesInv(s: Session, o: Outcome)
    requires Inv(s)
    ensures Inv(OnRespond(s, o))
  {
    if s.pending > 0 {
      EmitAccounts(s, Settle(s.state, o));
    }
  }

  lemma OnCtaPreservesInv(s: Session, b: CtaButton)
    requires Inv(s)
    ensures Inv(OnCta(s, b))
  {
    if s.user.None? {
      var p := [Press(b)];
      assert p[1..] == [];
      assert Write(s.state, p[0]) == s.state;
      assert Apply(s.state, p) == Apply(s.state, p[1..]) == s.state;
      assert Sends(p) == Sent(p[0]) + Sends(p[1..]) == [];
      EmitAccounts(s, Step(s.state, p));
      assert Emit(s, Step(s.state, p)) == OnCta(s, b);
    }
  }

  lemma DispatchPreservesInv(s: Session, e: Event)
    requires Inv(s)
    ensures Inv(Dispatch(s, e))
  {
    match e
    case TypeText(t) => OnTypePreservesInv(s, t);
    case ClickSubmit => OnSubmitPreservesInv(s);
    case Respond(o) => OnRespondPreservesInv(s, o);
    case ClickCta(b) => OnCtaPreservesInv(s, b);
    case IdentityChange(u) =>
  }

  lemma {:induction false} RunPreservesInv(s: Session, evs: seq<Event>)
    requires Inv(s)
    ensures Inv(Run(s, evs))
    decreases |evs|
  {
    if evs != [] {
      DispatchPreservesInv(s, evs[0]);
      RunPreservesInv(Dispatch(s, evs[0]), evs[1..]);
    }
  }

  /** Whatever happens after mounting, at most one request is outstanding, the
      in-flight flag is raised exactly while one is, sends and settlements
      balance, and revalidations match success notifications. */
  lemma SingleFlight(cfg: Config, user: Option<User>, evs: seq<Event>)
    ensures var r := Run(Mount(cfg, user), evs);
      && r.pending <= 1
      && (r.state.isLoading <==> r.pending == 1)
      && |Sends(r.log)| == Settlements(r.log) + r.pending
      && Revalidations(r.log) == SuccessNotices(r.log)
  {
    RunPreservesInv(Mount(cfg, user), evs);
  }

  /** While a request is outstanding a click on submit reaches no handler. */
  lemma NoSecondStart(s: Session)
    requires Inv(s) && s.pending == 1
    ensures Dispatch(s, ClickSubmit) == s
  {
  }

  /** With an empty draft a click on submit reaches no handler. */
  lemma EmptyDraftSubmitIsNoOp(s: Session)
    requires s.state.body == ""
    ensures Dispatch(s, ClickSubmit) == s
  {
  }

  /** Without a user, a call-to-action button only records its own modal
      opening; with a user there is no such button. */
  lemma CtaClick(s: Session, b: CtaButton)
    ensures s.user.None? ==> Dispatch(s, ClickCta(b)) == s.(log := s.log + [Press(b)])
    ensures s.user.Some? ==> Dispatch(s, ClickCta(b)) == s
  {
  }

  lemma {:induction false} RunAppend(s: Session, a: seq<Event>, b: seq<Event>)
    ensures Run(s, a + b) == Run(Run(s, a), b)
    decreases |a|
  {
    if a == [] {
      assert a + b == b;
    } else {
      assert (a + b)[0] == a[0];
      assert (a + b)[1..] == a[1..] + b;
      RunAppend(Dispatch(s, a[0]), a[1..], b);
    }
  }

  /** While a request is outstanding, nothing but its response changes the
      composer: typing and submitting are blocked, and nothing is sent or
      revalidated. */
  lemma {:induction false} InFlightFreezesDraft(s: Session, evs: seq<Event>)
    requires s.state.isLoading
    requires forall i :: 0 <= i < |evs| ==> !evs[i].Respond?
    ensures Run(s, evs).state == s.state
    ensures Run(s, evs).pending == s.pending
    ensures Sends(Run(s, evs).log) == Sends(s.log)
    ensures Revalidations(Run(s, evs).log) == Revalidations(s.log)
    decreases |evs|
  {
    if evs != [] {
      InFlightStep(s, evs[0]);
      InFlightFreezesDraft(Dispatch(s, evs[0]), evs[1..]);
    }
  }

  /** One event other than the response, while a request is outstanding. */
  lemma InFlightStep(s: Session, e: Event)
    requires s.state.isLoading && !e.Respond?
    ensures Dispatch(s, e).state == s.state && Dispatch(s, e).pending == s.pending
    ensures Sends(Dispatch(s, e).log) == Sends(s.log)
    ensures Revalidations(Dispatch(s, e).log) == Revalidations(s.log)
  {
    if e.ClickCta? && s.user.None? {
      var p := [Press(e.button)];
      assert p[1..] == [];
      assert Sends(p) == [];
      SendsAppend(s.log, p);
    }
  }

  /** A submission that fails, whatever happens while it is in flight, leaves
      the composer exactly as it was before the click, with one request sent
      carrying the draft and no revalidation. */
  lemma FailedSubmission(s: Session, mid: seq<Event>)
    requires Inv(s) && Gate(s.user).ComposerView? && !SubmitDisabled(s.state)
    requires forall i :: 0 <= i < |mid| ==> !mid[i].Respond?
    ensures Run(s, [ClickSubmit] + mid + [Respond(Failure)]).state == s.state
    ensures Run(s, [ClickSubmit] + mid + [Respond(Failure)]).pending == 0
    ensures Sends(Run(s, [ClickSubmit] + mid + [Respond(Failure)]).log)
         == Sends(s.log) + [Request(Endpoint(s.cfg), Payload(s.state.body))]
    ensures Revalidations(Run(s, [ClickSubmit] + mid + [Respond(Failure)]).log) == Revalidations(s.log)
  {
    Submission(s, mid, Failure);
  }

  /** A submission that succeeds leaves an empty idle composer, with one
      request sent carrying the draft and exactly one more revalidation. */
  lemma SuccessfulSubmission(s: Session, mid: seq<Event>)
    requires Inv(s) && Gate(s.user).ComposerView? && !SubmitDisabled(s.state)
    requires forall i :: 0 <= i < |mid| ==> !mid[i].Respond?
    ensures Run(s, [ClickSubmit] + mid + [Respond(Success)]).state == Initial
    ensures Run(s, [ClickSubmit] + mid + [Respond(Success)]).pending == 0
    ensures Sends(Run(s, [ClickSubmit] + mid + [Respond(Success)]).log)
         == Sends(s.log) + [Request(Endpoint(s.cfg), Payload(s.state.body))]
    ensures Revalidations(Run(s, [ClickSubmit] + mid + [Respond(Success)]).log) == Revalidations(s.log) + 1
  {
    Submission(s, mid, Success);
  }

  /** A single event run on its own is one dispatch. */
  lemma RunOne(s: Session, e: Event)
    ensures Run(s, [e]) == Dispatch(s, e)
  {
    assert [e][1..] == [];
  }

  /** The click that reaches the submit handler sends exactly the draft. */
  lemma SubmitClickSends(s: Session)
    requires Inv(s) && Gate(s.user).ComposerView? && !SubmitDisabled(s.state)
    ensures OnSubmit(s).state == s.state.(isLoading := true)
    ensures OnSubmit(s).pending == 1
    ensures Sends(OnSubmit(s).log) == Sends(s.log) + [Request(Endpoint(s.cfg), Payload(s.state.body))]
    ensures Revalidations(OnSubmit(s).log) == Revalidations(s.log)
  {
    EmitAccounts(s, Start(s.cfg, s.state));
  }

  /** The response to the one outstanding request settles it. */
  lemma ResponseSettles(s: Session, o: Outcome)
    requires s.pending == 1
    ensures OnRespond(s, o).state == Settle(s.state, o).state
    ensures OnRespond(s, o).pending == 0
    ensures Sends(OnRespond(s, o).log) == Sends(s.log)
    ensures Revalidations(OnRespond(s, o).log) == Revalidations(s.log) + (if o == Success then 1 else 0)
  {
    EmitAccounts(s, Settle(s.state, o));
  }

  /** One whole submission: click, arbitrary events while in flight, response. */
  lemma Submission(s: Session, mid: seq<Event>, o: Outcome)
    requires Inv(s) && Gate(s.user).ComposerView? && !SubmitDisabled(s.state)
    requires forall i :: 0 <= i < |mid| ==> !mid[i].Respond?
    ensures Run(s, [ClickSubmit] + mid + [Respond(o)]).state
         == (if o == Success then Initial else s.state)
    ensures Run(s, [ClickSubmit] + mid + [Respond(o)]).pending == 0
    ensures Sends(Run(s, [ClickSubmit] + mid + [Respond(o)]).log)
         == Sends(s.log) + [Request(Endpoint(s.cfg), Payload(s.state.body))]
    ensures Revalidations(Run(s, [ClickSubmit] + mid + [Respond(o)]).log)
         == Revalidations(s.log) + (if o == Success then 1 else 0)
  {
    SubmissionRun(s, mid, o);
    SubmitClickSends(s);
    var s1 := OnSubmit(s);
    InFlightFreezesDraft(s1, mid);
    ResponseSettles(Run(s1, mid), o);
  }

  /** A whole submission is the click, the events in between, and the response. */
  lemma SubmissionRun(s: Session, mid: seq<Event>, o: Outcome)
    ensures Run(s, [ClickSubmit] + mid + [Respond(o)]) == OnRespond(Run(OnSubmit(s), mid), o)
  {
    RunAppend(s, [ClickSubmit] + mid, [Respond(o)]);
    RunAppend(s, [ClickSubmit], mid);
    RunOne(s, ClickSubmit);
    RunOne(Run(OnSubmit(s), mid), Respond(o));
  }
}
