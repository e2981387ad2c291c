/** Clients of the Endpoint class: a driver that makes any sequence of calls on an
    endpoint, and fixed call sequences together with what they observe afterwards. */
module EndpointScenarios {
  import opened EndpointSpec
  import opened MultiEndpoint

  /** Makes each call of the sequence on e, in order, through the class's own
      methods; the fields afterwards are those Run gives, so every lemma about Run
      holds of the object. */
  method Apply(e: Endpoint, calls: seq<Call>)
    modifies e
    ensures e.View() == Run(old(e.View()), calls)
  {
    ghost var v0 := e.View();
    var i := 0;
    while i < |calls|
      invariant 0 <= i <= |calls|
      invariant e.View() == Run(v0, calls[..i])
    {
      match calls[i] {
        case SetState(st) => e.SetState(st);
        case SetPriority(p) => e.SetPriority(p);
        case SetChangeStateFuture(f) => e.SetChangeStateFuture(f);
        case ResetStateChangeFuture => e.ResetStateChangeFuture();
      }
      RunLast(v0, calls[..i + 1]);
      assert calls[..i + 1][..i] == calls[..i];
      i := i + 1;
    }
    assert calls[..|calls|] == calls;
  }

  /** A fresh endpoint reports the values it was built with and holds no future. */
  method ConstructAndRead(id: string, state: EndpointState, priority: Int32)
    returns (gotId: string, gotState: EndpointState, gotPriority: Int32, pending: Option<Handle>)
    ensures gotId == id && gotState == state && gotPriority == priority
    ensures pending == None
  {
    var e := new Endpoint(id, state, priority);
    gotId := e.GetId();
    gotState := e.GetState();
    gotPriority := e.GetPriority();
    pending := e.changeStateFuture;
  }

  /** Resetting a fresh endpoint issues no cancel and leaves no future. */
  method ResetFresh(id: string, state: EndpointState, priority: Int32)
    returns (pending: Option<Handle>, ghost log: seq<CancelCall>)
    ensures pending == None && log == []
  {
    var e := new Endpoint(id, state, priority);
    e.ResetStateChangeFuture();
    pending, log := e.changeStateFuture, e.cancelled;
  }

  /** Storing f1 and then f2: f1 is cancelled once, f2 is held and not cancelled. */
  method StoreTwice(id: string, state: EndpointState, priority: Int32, f1: Handle, f2: Handle)
    returns (pending: Option<Handle>, ghost log: seq<CancelCall>)
    ensures pending == Some(f2)
    ensures log == [CancelCall(f1, true)]
  {
    var e := new Endpoint(id, state, priority);
    e.SetChangeStateFuture(Some(f1));
    e.SetChangeStateFuture(Some(f2));
    pending, log := e.changeStateFuture, e.cancelled;
  }

  /** Storing f and resetting twice cancels f twice, and f is still held. */
  method StoreThenResetTwice(id: string, state: EndpointState, priority: Int32, f: Handle)
    returns (pending: Option<Handle>, ghost log: seq<CancelCall>)
    ensures pending == Some(f)
    ensures log == [CancelCall(f, true), CancelCall(f, true)]
  {
    var e := new Endpoint(id, state, priority);
    e.SetChangeStateFuture(Some(f));
    e.ResetStateChangeFuture();
    e.ResetStateChangeFuture();
    pending, log := e.changeStateFuture, e.cancelled;
  }

  /** Endpoint "ep-1" created UNAVAILABLE with priority 10, set RECOVERING, given
      future f, set AVAILABLE, then reset: the reset cancels f but leaves it held. */
  method EndToEnd(f: Handle)
    returns (state: EndpointState, priority: Int32, pending: Option<Handle>, ghost log: seq<CancelCall>)
    ensures state == Available && priority == 10
    ensures log == [CancelCall(f, true)]
    ensures pending == Some(f)
  {
    var e := new Endpoint("ep-1", Unavailable, 10);
    e.SetState(Recovering);
    e.SetChangeStateFuture(Some(f));
    e.SetState(Available);
    e.ResetStateChangeFuture();
    state := e.GetState();
    priority := e.GetPriority();
    pending, log := e.changeStateFuture, e.cancelled;
  }
}
