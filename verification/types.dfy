/**
 The values the post/comment composer works on: its own state, the
 configuration it is mounted with, the signed-in identity, and the effects it
 hands to the outside world (state writes, the HTTP request, notifications,
 cache revalidation, modal openings).
 */
module Types {

  datatype Option<+T> = None | Some(value: T)

  /** The composer's two pieces of component state: the draft and the in-flight flag. */
  datatype State = State(body: string, isLoading: bool)

  /** Both pieces of state start empty / idle when the widget mounts. */
  const Initial: State := State("", false)

  /** The widget's props that affect behaviour. `isComment` is optional in the
      source and an absent flag behaves as `false`; `postId` may be absent. */
  datatype Config = Config(isComment: bool, postId: Option<string>)

  /** The signed-in user as the current-user provider reports it. */
  datatype User = User(id: string)

  /** The JSON body sent to the creation endpoint. */
  datatype Payload = Payload(body: string)

  /** One POST request handed to the HTTP client. */
  datatype Request = Request(url: string, payload: Payload)

  /** What the HTTP call came back with; every kind of error is one `Failure`. */
  datatype Outcome = Success | Failure

  /** Everything the composer does that an observer can see, in order. */
  datatype Effect =
    | WriteBody(text: string)        // the draft setter
    | WriteLoading(flag: bool)       // the in-flight setter
    | Send(request: Request)         // the POST request
    | NotifySuccess(message: string) // success toast
    | NotifyError(message: string)   // error toast
    | Revalidate                     // the post list's revalidation trigger
    | OpenLogin                      // the login modal's open operation
    | OpenRegister                   // the register modal's open operation

  const SuccessMessage: string := "Post criado!"
  const ErrorMessage: string := "Something went wrong"

  /** JavaScript truthiness of a string: only the empty string is falsy. */
  predicate Truthy(s: string) {
    s != ""
  }

  /** The requests an effect log sent, in order. */
  function Sends(log: seq<Effect>): seq<Request> {
    if log == [] then [] else Sent(log[0]) + Sends(log[1..])
  }

  /** The request one effect sends, if it is a send. */
  function Sent(e: Effect): (r: seq<Request>)
    ensures |r| <= 1
  {
    if e.Send? then [e.request] else []
  }

  lemma {:induction false} SendsAppend(a: seq<Effect>, b: seq<Effect>)
    ensures Sends(a + b) == Sends(a) + Sends(b)
  {
    if a == [] {
      assert a + b == b;
    } else {
      assert (a + b)[0] == a[0];
      assert (a + b)[1..] == a[1..] + b;
      SendsAppend(a[1..], b);
      assert Sends(a + b) == Sent(a[0]) + (Sends(a[1..]) + Sends(b));
      assert Sent(a[0]) + (Sends(a[1..]) + Sends(b)) == (Sent(a[0]) + Sends(a[1..])) + Sends(b);
    }
  }

  /** How many times the cache revalidation was triggered. */
  function Revalidations(log: seq<Effect>): nat {
    multiset(log)[Revalidate]
  }

  /** How many submissions were settled (the `finally` write of the flag). */
  function Settlements(log: seq<Effect>): nat {
    multiset(log)[WriteLoading(false)]
  }

  /** How many success notifications were shown. */
  function SuccessNotices(log: seq<Effect>): nat {
    multiset(log)[NotifySuccess(SuccessMessage)]
  }

  /** How many error notifications were shown. */
  function ErrorNotices(log: seq<Effect>): nat {
    multiset(log)[NotifyError(ErrorMessage)]
  }

  /** `a` occurs in `log` strictly before `b`. */
  ghost predicate Precedes(log: seq<Effect>, a: Effect, b: Effect) {
    exists i, j :: 0 <= i < j < |log| && log[i] == a && log[j] == b
  }
}
