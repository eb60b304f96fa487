# Post/comment composer: draft and submission state machine

A model of the composer widget in `components/Form.tsx` of a small social-feed
application. The widget holds a draft (`body`) and an in-flight flag
(`isLoading`). Its submit handler posts the draft either to `/api/posts` or to
`/api/comments?postId=<id>`. On success it shows a toast, clears the draft and
revalidates the post list; on failure it shows an error toast and keeps the
draft. In both cases it clears the flag in a `finally`. Without a signed-in
user the widget shows login and register buttons instead of the composer.

The model is functional:

- `Types`: the state, configuration, user, request and the effect trace. Effects
  include the two state setters, the request, the toasts, the revalidation and
  the two modal openings. It also has counting helpers over a trace.
- `Endpoints`: URL selection. `Route` reads a creation URL back into what it
  asks to create, and is the inverse that `Endpoint` is proved against.
- `Composer`: the two `disabled` expressions, the change handler and the submit
  handler. The submit handler is split at its `await` into `Start` and
  `Settle`. Each transition returns its next state and its ordered effects.
  `Apply` replays the state writes of a trace, and each transition's next
  state is proved equal to that replay.
- `AuthGate`: the choice between the composer and the call to action, and the
  effect of each call-to-action button.
- `Widget`: the mounted widget driven by a sequence of events. The events are
  typing, submit clicks, the network's response, call-to-action clicks and
  identity changes. A click on a disabled button, or typing into a disabled or
  unrendered textarea, reaches no handler. `pending` counts requests that were
  sent and not yet settled. With it, single-flight is an invariant proved over
  every event sequence, not an assumption.

Three details of the code shape the model:

- The submit handler itself checks neither the draft nor the flag; only the
  button's `disabled` expression does. So `Composer.Start` takes "enabled" as
  its precondition, and `Widget.OnSubmit` is the gate.
- A comment's parent id is never validated. The prop is optional and is
  interpolated by a template literal, so an absent id produces
  `/api/comments?postId=undefined` (`Endpoints.MissingIdExample`).
- The same success message, "Post criado!", is shown for posts and comments.

## Model

| member | source | states |
|---|---|---|
| Composer.SubmitDisabled | components/Form.tsx:94 | the submit button is enabled exactly when the draft is non-empty and no submission is in flight |
| Composer.TextareaDisabled | components/Form.tsx:64 | the textarea is disabled exactly while a submission is in flight, and whenever it is disabled the submit button is too |
| Composer.ControlsOnEmptyDraft | components/Form.tsx:64-94 | the textarea's disabled state does not depend on the draft; an empty idle composer accepts typing but cannot be submitted |
| Composer.Input | components/Form.tsx:65 | a text change makes the draft exactly the new text, keeps the flag, and its only effect is that one draft write, which replays to that state; it sends nothing and revalidates nothing |
| Composer.InputLastWins | components/Form.tsx:65 | two edits in a row leave only the second |
| Composer.Start | components/Form.tsx:34-42 | starting a submission keeps the draft, raises the flag (disabling both controls) as its first effect, and then, as its second and last effect, sends exactly one request: the configured endpoint with the draft as payload, whose URL routes back to the intended target; no toast, settlement or revalidation yet |
| Composer.Settle | components/Form.tsx:42-52 | settling always clears the flag, as the last effect. On success the trace is exactly four effects: success toast, draft reset to empty, one revalidation, flag cleared. On failure it is exactly two: one error toast, then flag cleared, so the draft is untouched and nothing is revalidated. The next state is the replay of the settle's own writes |
| Composer.RoundTrip | components/Form.tsx:34-53 | a failed submission returns the composer to its state before the click; a successful one leaves it empty and idle |
| Endpoints.Interpolate | components/Form.tsx:39 | interpolating a present id yields the id itself; an absent one yields "undefined" |
| Endpoints.Endpoint | components/Form.tsx:38-40 | the chosen URL routes back to a comment on the interpolated post id when `isComment` holds, and to a new post otherwise |
| Endpoints.Route | components/Form.tsx:38-40 | a URL reads as a new post exactly when it is the posts path, and as a comment on `id` exactly when it is the comments prefix followed by `id` |
| Endpoints.EndpointInjective | components/Form.tsx:38-40 | two configurations that choose the same URL ask for the same creation |
| Endpoints.CommentExample | components/Form.tsx:38-39 | a comment on post "42" goes to `/api/comments?postId=42` |
| Endpoints.PostExample | components/Form.tsx:38-40 | a post goes to `/api/posts` whatever the post id prop is |
| Endpoints.MissingIdExample | components/Form.tsx:38-39 | a comment without a post id goes to `/api/comments?postId=undefined` |
| AuthGate.Gate | components/Form.tsx:57-60 | the composer is rendered exactly when a user is present, with that user's id for the avatar; otherwise the call to action is rendered |
| AuthGate.Press | components/Form.tsx:112-113 | the Login button opens the login modal and the Register button opens the register modal, each only its own |
| Widget.Mount | components/Form.tsx:31-32 | the widget mounts with an empty draft, no flag, nothing outstanding and an empty trace, satisfying the single-flight invariant |
| Widget.OnType | components/Form.tsx:63-65 | typing into the rendered, enabled textarea sets the draft; without a user or while in flight it changes nothing |
| Widget.OnSubmit | components/Form.tsx:93-95 | a click on submit without a user, with an empty draft, or while in flight changes nothing; otherwise it raises the flag and adds one outstanding request |
| Widget.OnRespond | components/Form.tsx:42-52 | a response with nothing outstanding changes nothing; otherwise it settles the one outstanding request and clears the flag |
| Widget.OnCta | components/Form.tsx:111-113 | a call-to-action click only appends its modal's opening, and only when no user is present |
| Widget.Dispatch | components/Form.tsx:55-116 | no event changes the configuration or shortens the trace; only identity changes change the user; while in flight, only the response changes the composer |
| Widget.DispatchPreservesInv | components/Form.tsx:34-53 | every event preserves the single-flight invariant and its bookkeeping |
| Widget.RunPreservesInv | components/Form.tsx:34-53 | every event sequence preserves the single-flight invariant |
| Widget.SingleFlight | components/Form.tsx:34-53 | from mounting, at most one request is ever outstanding; the flag is raised exactly while one is; sends equal settlements plus the outstanding one; revalidations equal success toasts |
| Widget.NoSecondStart | components/Form.tsx:94-95 | while a request is outstanding a submit click does nothing |
| Widget.EmptyDraftSubmitIsNoOp | components/Form.tsx:94-95 | with an empty draft a submit click does nothing |
| Widget.CtaClick | components/Form.tsx:111-113 | without a user a call-to-action click only records its own modal opening; with a user it does nothing |
| Widget.InFlightFreezesDraft | components/Form.tsx:63-65 | while a request is outstanding, any events other than its response leave the state and the outstanding count as they are; nothing is sent and nothing is revalidated |
| Widget.InFlightStep | components/Form.tsx:63-64 | while a request is outstanding, one event other than its response leaves the state and the outstanding count as they are, and sends or revalidates nothing |
| Widget.SubmitClickSends | components/Form.tsx:34-42 | the click that reaches the handler sends exactly the draft to the configured endpoint and leaves one request outstanding |
| Widget.ResponseSettles | components/Form.tsx:42-52 | the response to the outstanding request performs the settle transition, sends nothing, and revalidates once on success and never on failure |
| Widget.Submission | components/Form.tsx:34-53 | a whole submission (click, any other events, response) sends the draft once and ends idle: on success with an empty draft and one more revalidation; on failure with the state before the click and no revalidation |
| Widget.FailedSubmission | components/Form.tsx:48-51 | a failed submission keeps the draft, clears the flag and does not revalidate |
| Widget.SuccessfulSubmission | components/Form.tsx:44-51 | a successful submission empties the draft, clears the flag and revalidates exactly once |

## Left out

- The HTTP call (components/Form.tsx:42) is a foreign client. It becomes a `Send` effect plus an abstract `Success`/`Failure` response event. Status codes, timeouts and response bodies are not modelled, because the code handles them all as one failure.
- Toast display, the post-list revalidation and the modal controllers are external libraries. Each is only an effect in the trace.
- The `Revalidate` effect does not record the list key. The hook binds that key from `postId` (components/Form.tsx:29). Because the props are fixed for the widget's lifetime (next line), the key is always the mounted `postId`, so recording it would add nothing.
- Widget.Dispatch: the props (`isComment`, `postId`; components/Form.tsx:20-24) are fixed for the widget's lifetime, and no event changes `Session.cfg`. In the code, a re-render of the same instance with new props keeps the draft. It also re-keys the list hook (components/Form.tsx:29) and rebuilds the submit handler (components/Form.tsx:53), so a later submission and its revalidation use the new props. The model does not cover that re-render.
- Asynchronous scheduling, React re-rendering and batching, and `useCallback` memoisation (components/Form.tsx:34, 53) are not modelled. The suspension at `await` is the split into `Start` and `Settle`.
- Unmounting while a request is in flight is not modelled. The model's widget lives for the whole event sequence.
- Markup, CSS, the placeholder text, and the `Avatar` and `Button` components (components/Form.tsx:55-118) are presentation. A disabled button, or a disabled textarea, is assumed to deliver no events. That is the standard DOM behaviour for disabled form controls.
- Exceptions thrown by the toast or revalidation calls inside the `try` are not modelled; only the HTTP call fails.
