/** The endpoint record itself: a class whose setters update its fields in place.
    Each mutator states its new fields outright and is tied to EndpointSpec.Step;
    EndpointScenarios.Apply shows that any sequence of calls on an endpoint leaves
    it as EndpointSpec.Run says, so the lemmas about Run hold of the object. */
module MultiEndpoint {
  import opened EndpointSpec

  class Endpoint {
    const id: string
    var state: EndpointState
    var priority: Int32
    /** The pending state-change future; None stands for Java's null. */
    var changeStateFuture: Option<Handle>
    /** Every cancel this endpoint has issued, in order. */
    ghost var cancelled: seq<CancelCall>

    ghost function View(): Snapshot
      reads this
    {
      Snapshot(id, state, priority, changeStateFuture, cancelled)
    }

    /** Sets id, state and priority; the future field is left null. */
    constructor (id: string, state: EndpointState, priority: Int32)
      ensures this.id == id && this.state == state && this.priority == priority
      ensures changeStateFuture == None && cancelled == []
      ensures View() == Initial(id, state, priority)
    {
      this.id := id;
      this.priority := priority;
      this.state := state;
      changeStateFuture := None;
      cancelled := [];
    }

    /** The id given at construction: the field is constant. */
    method GetId() returns (r: string)
      ensures r == id
    {
      r := id;
    }

    method GetState() returns (r: EndpointState)
      ensures r == state
    {
      r := state;
    }

    method GetPriority() returns (r: Int32)
      ensures r == priority
    {
      r := priority;
    }

    /** Replaces the state without validation; nothing else changes. */
    method SetState(state: EndpointState)
      modifies this`state
      ensures this.state == state
      ensures priority == old(priority) && changeStateFuture == old(changeStateFuture)
      ensures cancelled == old(cancelled)
      ensures View() == Step(old(View()), Call.SetState(state))
    {
      this.state := state;
    }

    /** Replaces the priority without a range check; nothing else changes. */
    method SetPriority(priority: Int32)
      modifies this`priority
      ensures this.priority == priority
      ensures state == old(state) && changeStateFuture == old(changeStateFuture)
      ensures cancelled == old(cancelled)
      ensures View() == Step(old(View()), Call.SetPriority(priority))
    {
      this.priority := priority;
    }

    /** Cancels the stored future, if any (it may be the very future passed in),
        then stores the new one, which this call does not cancel. */
    method SetChangeStateFuture(future: Option<Handle>)
      modifies this`changeStateFuture, this`cancelled
      ensures changeStateFuture == future
      ensures cancelled == old(cancelled) + Interrupts(Held(old(changeStateFuture)))
      ensures state == old(state) && priority == old(priority)
      ensures View() == Step(old(View()), Call.SetChangeStateFuture(future))
    {
      ResetStateChangeFuture();
      changeStateFuture := future;
    }

    /** Cancels the stored future with interruption, if one is stored. No field is
        assigned: the slot still holds the cancelled future afterwards. */
    method ResetStateChangeFuture()
      modifies this`cancelled
      ensures old(changeStateFuture) == None ==> cancelled == old(cancelled)
      ensures old(changeStateFuture).Some? ==>
                cancelled == old(cancelled) + [CancelCall(old(changeStateFuture).value, true)]
      ensures changeStateFuture == old(changeStateFuture)
      ensures state == old(state) && priority == old(priority)
      ensures View() == Step(old(View()), Call.ResetStateChangeFuture)
    {
      if changeStateFuture != None {
        cancelled := cancelled + [CancelCall(changeStateFuture.value, true)];
      }
    }
  }
}
