/** The port response channel: `DartResponse` and `SendResponseToPort`.
    Posting to a Dart port is modelled only as appending to an outbox. */
module PortChannel {
  import opened Go
  import opened GeneralSettings
  import opened Json

  /** The one response every exported function posts:
      `{ "success": bool, "message": string, "data": string }`. */
  datatype DartResponse = DartResponse(success: bool, message: string, data: string)

  /** `DartResponse{Success: false, Message: message}`; `Data` keeps its zero value. */
  function Failed(message: string): DartResponse {
    DartResponse(false, message, "")
  }

  /** `DartResponse{Success: true, Data: data}`; `Message` keeps its zero value. */
  function Succeeded(data: string): DartResponse {
    DartResponse(true, "", data)
  }

  /** The shape every response of the bridge has: a success carries no
      message, a failure carries a non-empty message and no data. */
  predicate WellShaped(r: DartResponse) {
    if r.success then r.message == "" else r.message != "" && r.data == ""
  }

  /** The tail shared by every getter: send the marshalled text on success,
      the marshalling error otherwise. */
  function Encoded(marshalled: Result<string>): (r: DartResponse)
    ensures WellShaped(r)
    ensures r.success <==> marshalled.Ok?
    ensures marshalled.Ok? ==> r.data == marshalled.value
    ensures marshalled.Err? ==> r.message == marshalled.error
  {
    match marshalled
    case Ok(text) => Succeeded(text)
    case Err(e) => Failed(e)
  }

  /** A response posted to the port with token `port`. */
  datatype Delivery = Delivery(port: int64, response: DartResponse)

  /** The steps an exported function can take, in the order it takes them:
      the JSON calls it makes, the branches of its body that act on a
      decoded field or key, and its sends. */
  datatype Event =
    | Unmarshalled(input: string)
    | Applied(field: Field)
    | Visited(key: string)
    | Marshalled(payload: Payload)
    | Sent(port: int64, response: DartResponse)

  /** The deliveries a trace contains, in order. */
  function Deliveries(trace: seq<Event>): (d: seq<Delivery>)
    ensures |d| <= |trace|
  {
    if trace == [] then []
    else
      var e := trace[|trace| - 1];
      Deliveries(trace[..|trace| - 1]) + if e.Sent? then [Delivery(e.port, e.response)] else []
  }

  /** A trace with no send in it. */
  predicate Quiet(trace: seq<Event>) {
    forall i :: 0 <= i < |trace| ==> !trace[i].Sent?
  }

  lemma {:induction false} QuietDeliversNothing(trace: seq<Event>)
    requires Quiet(trace)
    ensures Deliveries(trace) == []
  {
    if trace != [] {
      QuietDeliversNothing(trace[..|trace| - 1]);
    }
  }

  lemma {:induction false} DeliveriesAppend(a: seq<Event>, b: seq<Event>)
    ensures Deliveries(a + b) == Deliveries(a) + Deliveries(b)
  {
    if b != [] {
      var b' := b[..|b| - 1];
      var e := b[|b| - 1];
      var tail := if e.Sent? then [Delivery(e.port, e.response)] else [];
      assert (a + b)[..|a + b| - 1] == a + b';
      assert (a + b)[|a + b| - 1] == e;
      assert Deliveries(b) == Deliveries(b') + tail;
      DeliveriesAppend(a, b');
    } else {
      assert a + b == a;
    }
  }

  /** A trace that posts exactly one response, to `port`, as its last step. */
  predicate AnsweredOnce(trace: seq<Event>, port: int64) {
    && |trace| > 0
    && trace[|trace| - 1].Sent?
    && trace[|trace| - 1].port == port
    && Quiet(trace[..|trace| - 1])
  }

  /** The Dart ports reachable through the process-wide API handle, seen
      from the bridge: `outbox` holds every response posted so far, in
      order. The ghost `trace` records everything the exported functions did. */
  class Ports {
    var outbox: seq<Delivery>
    ghost var trace: seq<Event>

    /** Every response posted so far is well-shaped. */
    ghost predicate Shaped()
      reads this`outbox
    {
      forall i :: 0 <= i < |outbox| ==> WellShaped(outbox[i].response)
    }

    /** The responses posted so far are well-shaped and are exactly the
        sends the trace records, in order. */
    ghost predicate Valid()
      reads this
    {
      Shaped() && Deliveries(trace) == outbox
    }

    constructor ()
      ensures Valid()
      ensures outbox == [] && trace == []
    {
      outbox, trace := [], [];
    }

    /** `SendResponseToPort(port, &response)`. */
    method SendResponseToPort(port: int64, response: DartResponse)
      modifies this`outbox, this`trace
      ensures outbox == old(outbox) + [Delivery(port, response)]
      ensures trace == old(trace) + [Sent(port, response)]
      ensures Shaped() <==> old(Shaped()) && WellShaped(response)
    {
      ghost var posted := outbox;
      outbox := outbox + [Delivery(port, response)];
      trace := trace + [Sent(port, response)];
      assert forall i :: 0 <= i < |posted| ==> outbox[i] == posted[i];
      assert outbox[|outbox| - 1].response == response;
    }
  }
}
