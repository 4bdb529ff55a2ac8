/** The outside world the front end talks to: the HTTP exchange, the
    `token` entry of the browser's local storage, and an append-only log of
    what the user sees happen (requests sent, toasts, page changes). */
module Http {
  import opened Wrappers
  import opened Types

  datatype Verb = Get | Post | Put | Delete

  /** A path relative to the API base URL: a collection such as
      `/branches`, or one of its entities, `/branches/<id>`. */
  datatype Route = Route(collection: string, id: Option<int>)

  datatype Payload =
    | Credentials(email: string, password: string)
    | Registration(branch: BranchData, user: UserData)
    | BranchFields(branchData: BranchData)
    | UserFields(userEdit: UserEdit)
    | WorkoutFields(workout: WorkoutData)

  /** What a call site hands to `makeRequest`: method, path and body. */
  datatype Descriptor = Descriptor(verb: Verb, route: Route, body: Option<Payload>)

  /** What goes on the wire: the descriptor plus the `Authorization`
      header, when the request interceptor set one. */
  datatype Request = Request(descriptor: Descriptor, authorization: Option<string>)

  /** An HTTP error response: its status, `data.message` and the
      `x-error-message` header, each absent when the server did not send it. */
  datatype ErrorResponse = ErrorResponse(status: int, message: Option<string>, errorHeader: Option<string>)

  /** Why an awaited request rejected: an Axios error (with the response,
      if one arrived, and the error's own `message`) or anything else. */
  datatype Failure =
    | AxiosFailure(response: Option<ErrorResponse>, message: string)
    | OtherFailure

  datatype ToastKind = ErrorToast | SuccessToast | InfoToast

  datatype Event =
    | Sent(request: Request)
    | Toast(kind: ToastKind, text: string)
    | Redirect(path: string)   // assignment to `window.location.href`
    | Navigate(path: string)   // the router's `navigate`

  /** The browser state the core reads and writes. `token` is
      `localStorage.getItem('token')` (`None` for `null`). */
  class World {
    var token: Option<string>
    var events: seq<Event>

    constructor (stored: Option<string>)
      ensures token == stored && events == []
    {
      token := stored;
      events := [];
    }
  }

  /** The toasts in an event log, in order. */
  function Toasts(events: seq<Event>): (r: seq<Event>)
    ensures |r| <= |events|
    ensures forall e :: e in r ==> e.Toast? && e in events
  {
    if events == [] then []
    else (if events[0].Toast? then [events[0]] else []) + Toasts(events[1..])
  }

  /** The requests in an event log, in order. */
  function Requests(events: seq<Event>): (r: seq<Request>)
    ensures |r| <= |events|
    ensures forall q :: q in r ==> Sent(q) in events
  {
    if events == [] then []
    else (if events[0].Sent? then [events[0].request] else []) + Requests(events[1..])
  }

  lemma {:induction false} ToastsAppend(a: seq<Event>, b: seq<Event>)
    ensures Toasts(a + b) == Toasts(a) + Toasts(b)
  {
    if a == [] {
      assert a + b == b;
    } else {
      assert (a + b)[1..] == a[1..] + b;
      ToastsAppend(a[1..], b);
    }
  }

  lemma {:induction false} RequestsAppend(a: seq<Event>, b: seq<Event>)
    ensures Requests(a + b) == Requests(a) + Requests(b)
  {
    if a == [] {
      assert a + b == b;
    } else {
      assert (a + b)[0] == a[0] && (a + b)[1..] == a[1..] + b;
      RequestsAppend(a[1..], b);
      calc {
        Requests(a + b);
        (if a[0].Sent? then [a[0].request] else []) + Requests(a[1..] + b);
        (if a[0].Sent? then [a[0].request] else []) + (Requests(a[1..]) + Requests(b));
      }
    }
  }

  /** A log without sends holds no requests. */
  lemma {:induction false} NoRequests(events: seq<Event>)
    requires forall i | 0 <= i < |events| :: !events[i].Sent?
    ensures Requests(events) == []
  {
    if events != [] {
      NoRequests(events[1..]);
    }
  }
}
