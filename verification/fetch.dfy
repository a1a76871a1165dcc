/**
 The request lifecycle of the Cal component. Its state is the triple of React
 state cells (status, calendarData, error). On mount it starts one fetch of the
 aggregation endpoint, and that fetch settles exactly once. The network call and
 JSON parsing are not modelled: their outcome is the `Settlement` input.
 */
module Fetch {
  import opened Chart

  datatype Option<T> = None | Some(value: T)

  datatype Status = Idle | Loading | Success | Error

  /** The component's state. `error` is null until a failure stores a message. */
  datatype State<H> = State(status: Status, calendarData: seq<Entry<H>>, error: Option<string>)

  /** How the fetch settled: an OK response whose body is an array of entries;
      a non-OK response whose body parsed to a non-null value, which may carry
      an `error` field; or an exception with its message. The exception covers
      a network failure, a body that is not JSON, and a non-OK body that parsed
      to `null`, where reading its `error` field throws a TypeError. */
  datatype Settlement<H> =
    | Ok(body: seq<Entry<H>>)
    | NotOk(errorField: Option<string>)
    | Thrown(message: string)

  /** What the try block ends with: the parsed entries, or the message of the
      exception it raised (thrown by the fetch or raised for a non-OK status). */
  datatype Outcome<H> = Parsed(data: seq<Entry<H>>) | Raised(message: string)

  const FallbackMessage: string := "Failed to fetch calendar data"

  /** JavaScript truthiness of a nullable string: present and non-empty. */
  predicate Truthy(s: Option<string>) {
    s.Some? && s.value != ""
  }

  /** The state before the effect runs: idle, no data, a null error. */
  function Initial<H>(): (r: State<H>)
    ensures r.status == Idle && r.calendarData == [] && r.error == None
  {
    State(Idle, [], None)
  }

  /** The message raised for a non-OK response: the body's `error` field when
      it is truthy, the fixed fallback otherwise. */
  function ErrorMessage(field: Option<string>): (m: string)
    ensures m != ""
    ensures Truthy(field) ==> m == field.value
    ensures !Truthy(field) ==> m == FallbackMessage
  {
    if Truthy(field) then field.value else FallbackMessage
  }

  /** The try block: parse the body, raise for a non-OK status. */
  function Attempt<H>(s: Settlement<H>): (o: Outcome<H>)
    ensures o.Parsed? <==> s.Ok?
    ensures s.Ok? ==> o.data == s.body
    ensures s.NotOk? ==> o.message == ErrorMessage(s.errorField)
    ensures s.Thrown? ==> o.message == s.message
  {
    match s
    case Ok(body) => Parsed(body)
    case NotOk(field) => Raised(ErrorMessage(field))
    case Thrown(msg) => Raised(msg)
  }

  /** Start of a fetch: only the status changes. */
  function Start<H>(st: State<H>): (r: State<H>)
    ensures r.status == Loading
    ensures r.calendarData == st.calendarData && r.error == st.error
  {
    st.(status := Loading)
  }

  /** Settlement of a fetch: success stores the body, failure stores the message;
      neither touches the other cell. */
  function Settle<H>(st: State<H>, s: Settlement<H>): (r: State<H>)
    ensures r.status == Success <==> s.Ok?
    ensures r.status == Error <==> !s.Ok?
    ensures s.Ok? ==> r.calendarData == s.body && r.error == st.error
    ensures !s.Ok? ==> r.calendarData == st.calendarData
    ensures s.NotOk? ==> r.error == Some(ErrorMessage(s.errorField)) && Truthy(r.error)
    ensures s.Thrown? ==> r.error == Some(s.message)
  {
    match Attempt(s)
    case Parsed(data) => st.(calendarData := data, status := Success)
    case Raised(msg) => st.(error := Some(msg), status := Error)
  }

  /** The component's whole life: the states it renders in, in order. */
  function Mount<H>(s: Settlement<H>): (trace: seq<State<H>>)
    ensures |trace| == 3
    ensures trace[0] == State(Idle, [], None)
    ensures trace[1] == State(Loading, [], None)
    ensures trace[2].status == Success <==> s.Ok?
    ensures s.Ok? ==> trace[2] == State(Success, s.body, None)
    ensures !s.Ok? ==> trace[2] == State(Error, [], Some(Attempt(s).message))
  {
    var loading := Start(Initial());
    [Initial(), loading, Settle(loading, s)]
  }

  /** Only the outcome of the try block matters: settlements that raise the
      same message, such as a non-OK response without an `error` field and an
      exception carrying the fallback text, leave the same state. */
  lemma OutcomeDeterminesState<H>(st: State<H>, s: Settlement<H>, t: Settlement<H>)
    ensures Attempt(s) == Attempt(t) <==> Settle(st, s) == Settle(st, t)
  {
  }

  /** A failed status always comes with an error message. */
  predicate Consistent<H>(st: State<H>) {
    st.status == Error ==> st.error.Some?
  }

  lemma TransitionsKeepConsistent<H>(st: State<H>, s: Settlement<H>)
    requires Consistent(st)
    ensures Consistent(Start(st))
    ensures Consistent(Settle(st, s))
  {
  }

  /** Once stored, an error message is never cleared: neither a later start
      nor a later success resets the cell. */
  lemma ErrorIsSticky<H>(st: State<H>, s: Settlement<H>)
    requires st.error.Some?
    ensures Start(st).error == st.error
    ensures Settle(st, s).error.Some?
    ensures s.Ok? ==> Settle(st, s).error == st.error
  {
  }

  /** Over the component's life, a success never carries an error message,
      and every state it reaches is consistent. */
  lemma MountStates<H>(s: Settlement<H>)
    ensures forall i :: 0 <= i < |Mount(s)| ==> Consistent(Mount(s)[i])
    ensures Mount(s)[2].status == Success ==> Mount(s)[2].error == None
    ensures Mount(s)[0].error == Mount(s)[1].error == None
  {
  }
}
