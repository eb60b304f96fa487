/**
 The composer's state machine: the two control predicates, the text-change
 handler, and the submit handler split at its single `await` into a start
 transition and a settle transition. Each transition returns the next state
 together with the effects it performs, in order; `Apply` replays the state
 writes among those effects and is the independent definition each
 transition's next state is checked against.
 */
module Composer {
  import opened Types
  import opened Endpoints

  /** The next state together with the effects that produced it. */
  datatype Step = Step(state: State, effects: seq<Effect>)

  /** The effect of one state write on the state; other effects leave it alone. */
  function Write(s: State, e: Effect): State {
    match e
    case WriteBody(t) => s.(body := t)
    case WriteLoading(f) => s.(isLoading := f)
    case _ => s
  }

  /** Replays the state writes of an effect log, in order. */
  function Apply(s: State, effects: seq<Effect>): State
    decreases |effects|
  {
    if effects == [] then s else Apply(Write(s, effects[0]), effects[1..])
  }

  /** Replaying two logs one after the other is replaying their concatenation. */
  lemma {:induction false} ApplyAppend(s: State, a: seq<Effect>, b: seq<Effect>)
    ensures Apply(s, a + b) == Apply(Apply(s, a), b)
    decreases |a|
  {
    if a == [] {
      assert a + b == b;
    } else {
      assert (a + b)[0] == a[0];
      assert (a + b)[1..] == a[1..] + b;
      ApplyAppend(Write(s, a[0]), a[1..], b);
    }
  }

  /** The submit button's `disabled` expression. */
  function SubmitDisabled(s: State): (r: bool)
    ensures !r <==> |s.body| > 0 && !s.isLoading
  {
    s.isLoading || !Truthy(s.body)
  }

  /** The textarea's `disabled` expression. */
  function TextareaDisabled(s: State): (r: bool)
    ensures r <==> s.isLoading
    ensures r ==> SubmitDisabled(s)
  {
    s.isLoading
  }

  /** Whether the textarea is disabled does not depend on the draft, while
      the submit button is: an empty idle composer can be typed into but not
      submitted. */
  lemma ControlsOnEmptyDraft(s: State, text: string)
    ensures TextareaDisabled(s.(body := text)) == TextareaDisabled(s)
    ensures !s.isLoading && s.body == "" ==> !TextareaDisabled(s) && SubmitDisabled(s)
  {
  }

  /** The textarea's change handler: the draft becomes the new text verbatim. */
  function Input(s: State, text: string): (r: Step)
    ensures r.state.body == text
    ensures r.state.isLoading == s.isLoading
    ensures r.effects == [WriteBody(text)]
    ensures Apply(s, r.effects) == r.state
    ensures Sends(r.effects) == [] && Revalidations(r.effects) == 0
    ensures Settlements(r.effects) == 0 && SuccessNotices(r.effects) == 0
  {
    var e := [WriteBody(text)];
    assert e[1..] == [];
    Step(s.(body := text), e)
  }

  /** Two edits in a row leave only the second. */
  lemma InputLastWins(s: State, a: string, b: string)
    ensures Input(Input(s, a).state, b).state == Input(s, b).state
  {
  }

  /** The submit handler up to its `await`: raise the in-flight flag, pick
      the URL and send the draft. Only reachable through an enabled button,
      so the handler itself checks nothing. */
  function Start(cfg: Config, s: State): (r: Step)
    requires !SubmitDisabled(s)
    ensures r.state.body == s.body
    ensures r.state.isLoading
    ensures SubmitDisabled(r.state) && TextareaDisabled(r.state)
    ensures Apply(s, r.effects) == r.state
    ensures |r.effects| == 2 && r.effects[0] == WriteLoading(true)
    ensures Sends(r.effects) == [Request(Endpoint(cfg), Payload(s.body))]
    ensures Route(Sends(r.effects)[0].url) == Some(Intended(cfg))
    ensures Revalidations(r.effects) == 0 && Settlements(r.effects) == 0
    ensures SuccessNotices(r.effects) == 0 && ErrorNotices(r.effects) == 0
  {
    var req := Request(Endpoint(cfg), Payload(s.body));
    var e := [WriteLoading(true), Send(req)];
    assert e[1..] == [Send(req)] && e[1..][1..] == [];
    assert Apply(s, e) == Apply(s.(isLoading := true), [Send(req)]);
    assert [Send(req)][1..] == [];
    assert Apply(s.(isLoading := true), [Send(req)]) == Apply(s.(isLoading := true), []);
    assert Sends(e) == Sent(e[0]) + Sends(e[1..]) == Sends(e[1..]);
    assert Sends(e[1..]) == Sent(Send(req)) + Sends([]) == [req];
    Step(s.(isLoading := true), e)
  }

  /** The submit handler after its `await`. On success: success toast, clear
      the draft, revalidate; on failure: error toast only. Either way the
      `finally` clears the in-flight flag as the very last effect. */
  function Settle(s: State, o: Outcome): (r: Step)
    ensures !r.state.isLoading && !TextareaDisabled(r.state)
    ensures Apply(s, r.effects) == r.state
    ensures |r.effects| > 0 && r.effects[|r.effects| - 1] == WriteLoading(false)
    ensures Settlements(r.effects) == 1 && Sends(r.effects) == []
    ensures o == Success ==> |r.effects| == 4
    ensures o == Success ==> r.state.body == ""
    ensures o == Success ==> Revalidations(r.effects) == 1 && SuccessNotices(r.effects) == 1
    ensures o == Success ==> ErrorNotices(r.effects) == 0
    ensures o == Success ==> Precedes(r.effects, NotifySuccess(SuccessMessage), WriteBody(""))
    ensures o == Success ==> Precedes(r.effects, WriteBody(""), Revalidate)
    ensures o == Failure ==> |r.effects| == 2
    ensures o == Failure ==> r.state.body == s.body
    ensures o == Failure ==> Revalidations(r.effects) == 0 && SuccessNotices(r.effects) == 0
    ensures o == Failure ==> ErrorNotices(r.effects) == 1
    ensures o == Failure ==> forall i :: 0 <= i < |r.effects| ==> !r.effects[i].WriteBody?
  {
    match o
    case Success => SuccessTraceFacts(s); Step(State("", false), SuccessTrace)
    case Failure => FailureTraceFacts(s); Step(s.(isLoading := false), FailureTrace)
  }

  /** What a successful settle performs, in order. */
  const SuccessTrace: seq<Effect> :=
    [NotifySuccess(SuccessMessage), WriteBody(""), Revalidate, WriteLoading(false)]

  /** What a failed settle performs, in order. */
  const FailureTrace: seq<Effect> := [NotifyError(ErrorMessage), WriteLoading(false)]

  lemma SuccessTraceFacts(s: State)
    ensures Apply(s, SuccessTrace) == State("", false)
    ensures Sends(SuccessTrace) == []
    ensures SuccessTrace[|SuccessTrace| - 1] == WriteLoading(false)
    ensures Settlements(SuccessTrace) == 1 && Revalidations(SuccessTrace) == 1
    ensures SuccessNotices(SuccessTrace) == 1 && ErrorNotices(SuccessTrace) == 0
    ensures Precedes(SuccessTrace, NotifySuccess(SuccessMessage), WriteBody(""))
    ensures Precedes(SuccessTrace, WriteBody(""), Revalidate)
  {
    var e := SuccessTrace;
    var t1, t2, t3 := e[1..], e[1..][1..], e[1..][1..][1..];
    assert t1 == [WriteBody(""), Revalidate, WriteLoading(false)];
    assert t2 == [Revalidate, WriteLoading(false)];
    assert t3 == [WriteLoading(false)];
    assert t3[1..] == [];
    assert Apply(s, e) == Apply(s, t1);
    assert Apply(s, t1) == Apply(s.(body := ""), t2);
    assert Apply(s.(body := ""), t2) == Apply(s.(body := ""), t3);
    assert Sends(e) == Sends(t1) == Sends(t2) == Sends(t3) == [];
    assert e[0] == NotifySuccess(SuccessMessage) && e[1] == WriteBody("") && e[2] == Revalidate;
    assert multiset(e) == multiset{NotifySuccess(SuccessMessage), WriteBody(""), Revalidate, WriteLoading(false)};
  }

  lemma FailureTraceFacts(s: State)
    ensures Apply(s, FailureTrace) == s.(isLoading := false)
    ensures Sends(FailureTrace) == []
    ensures FailureTrace[|FailureTrace| - 1] == WriteLoading(false)
    ensures Settlements(FailureTrace) == 1 && Revalidations(FailureTrace) == 0
    ensures SuccessNotices(FailureTrace) == 0 && ErrorNotices(FailureTrace) == 1
    ensures forall i :: 0 <= i < |FailureTrace| ==> !FailureTrace[i].WriteBody?
  {
    var e := FailureTrace;
    assert e[1..] == [WriteLoading(false)] && e[1..][1..] == [];
    assert Write(s, e[0]) == s;
    assert Apply(s, e) == Apply(s, e[1..]);
    assert Write(s, e[1..][0]) == s.(isLoading := false);
    assert Apply(s, e[1..]) == Apply(s.(isLoading := false), []);
    assert Sends(e) == Sends(e[1..]) == [];
    assert multiset(e) == multiset{NotifyError(ErrorMessage), WriteLoading(false)};
  }

  /** A submission that fails puts the composer back exactly where it was
      before the click; one that succeeds leaves an empty idle composer. */
  lemma RoundTrip(cfg: Config, s: State)
    requires !SubmitDisabled(s)
    ensures Settle(Start(cfg, s).state, Failure).state == s
    ensures Settle(Start(cfg, s).state, Success).state == Initial
  {
  }
}
