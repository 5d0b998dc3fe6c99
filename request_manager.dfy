/**
 * The client's RequestManager: the table of requests sent over the
 * connection and awaiting a response. Its fields change in place; every
 * method is proved to move the table exactly as the matching function of
 * module RequestTable says, and to keep it well formed.
 */
module Client {
  import opened Wrappers
  import opened RequestTable

  class RequestManager {
    var nextId: int
    /** Pending ids, each with its timer; the resolve/reject pair is the settlement log below. */
    var promisesAwaitingResponse: map<Id, Timer>
    /** Timers armed with the runtime: each with the id and request its callback captured. */
    var armed: map<Timer, (Id, Request)>
    ghost var admitted: seq<Id>
    ghost var settled: seq<(Id, Outcome)>

    ghost function Abs(): Table
      reads this
    {
      Table(nextId, promisesAwaitingResponse, armed, admitted, settled)
    }

    ghost predicate Valid()
      reads this
    {
      WellFormed(Abs())
    }

    constructor ()
      ensures Valid() && Abs() == Initial
    {
      nextId := 0;
      promisesAwaitingResponse := map[];
      armed := map[];
      admitted := [];
      settled := [];
    }

    /** Resolve the request `id` with `response`; throw if it is not pending. */
    method Resolve(id: Id, response: Response) returns (thrown: Option<Error>)
      requires Valid()
      modifies this
      ensures Valid()
      ensures var s := RequestTable.Resolve(old(Abs()), id, response);
              Abs() == s.table && thrown == s.thrown
    {
      if id !in promisesAwaitingResponse {
        return Some(NoExistingPromise(id));
      }
      var timer := promisesAwaitingResponse[id];
      armed := armed - {timer};                         // clearTimeout
      settled := settled + [(id, Resolved(response))];  // promise.resolve
      DeletePromise(id);
      thrown := None;
      SettlePreservesWellFormed(old(Abs()), id, Resolved(response));
    }

    /** Reject the request `id` with `error`; throw if it is not pending. */
    method Reject(id: Id, error: Error) returns (thrown: Option<Error>)
      requires Valid()
      modifies this
      ensures Valid()
      ensures var s := RequestTable.Reject(old(Abs()), id, error);
              Abs() == s.table && thrown == s.thrown
    {
      if id !in promisesAwaitingResponse {
        return Some(NoExistingPromise(id));
      }
      var timer := promisesAwaitingResponse[id];
      armed := armed - {timer};                      // clearTimeout
      settled := settled + [(id, Rejected(error))];  // promise.reject
      DeletePromise(id);
      thrown := None;
      SettlePreservesWellFormed(old(Abs()), id, Rejected(error));
    }

    /**
     * Reject every pending request. The walk visits the live table in an
     * order the model leaves open; `order` reports the one taken.
     */
    method RejectAll(error: Error) returns (ghost order: seq<Id>)
      requires Valid()
      modifies this
      ensures Valid()
      ensures Distinct(order) && (set x | x in order) == old(promisesAwaitingResponse).Keys
      ensures promisesAwaitingResponse == map[] && armed == map[]
      ensures settled == Rejections(old(settled), order, error)
      ensures nextId == old(nextId) && admitted == old(admitted)
      ensures RejectAllIn(old(Abs()), order, error) == Step(Abs(), None)
    {
      order := [];
      ghost var start := Abs();
      while promisesAwaitingResponse != map[]
        invariant Valid()
        invariant Distinct(order)
        invariant (set x | x in order) !! promisesAwaitingResponse.Keys
        invariant (set x | x in order) + promisesAwaitingResponse.Keys == start.pending.Keys
        invariant settled == Rejections(start.settled, order, error)
        invariant nextId == start.nextId && admitted == start.admitted
        decreases promisesAwaitingResponse.Keys
      {
        var id :| id in promisesAwaitingResponse;
        WalkStep(start.pending.Keys, order, promisesAwaitingResponse.Keys, id, error);
        RejectEntry(id, error);
        order := order + [id];
      }
      RejectAllClears(start, order, error);
    }

    /** The callback rejectAll runs for each pending id: reject it, then delete it. */
    method RejectEntry(id: Id, error: Error)
      requires Valid() && id in promisesAwaitingResponse
      modifies this
      ensures Valid()
      ensures promisesAwaitingResponse.Keys == old(promisesAwaitingResponse).Keys - {id}
      ensures settled == old(settled) + [(id, Rejected(error))]
      ensures nextId == old(nextId) && admitted == old(admitted)
      ensures Abs() == RequestTable.DeletePromise(RequestTable.Reject(old(Abs()), id, error).table, id)
      ensures Abs() == RequestTable.Reject(old(Abs()), id, error).table
    {
      var thrown := Reject(id, error);
      ghost var after := Abs();
      DeletePromise(id);
      assert promisesAwaitingResponse == after.pending;
      assert Abs() == after;
    }

    /**
     * Send-side bookkeeping for a new request. `timer` is the handle
     * setTimeout returns; the runtime never hands out one already armed.
     */
    method CreateRequest(request: Request, timer: Timer) returns (thrown: Option<Error>, id: Id, wire: Request)
      requires Valid() && timer !in armed
      modifies this
      ensures Valid()
      ensures var c := RequestTable.CreateRequest(old(Abs()), request, timer);
              Abs() == c.table && thrown == c.thrown && id == c.id && wire == c.wire
    {
      if request.id.None? {
        id := Num(nextId);
        nextId := nextId + 1;
      } else {
        id := request.id.value;
      }
      wire := request.(id := Some(id));
      armed := armed[timer := (id, request)];   // setTimeout
      if id in promisesAwaitingResponse {
        armed := armed - {timer};               // clearTimeout
        thrown := Some(AlreadyPending(id, request));
        CreatePreservesWellFormed(old(Abs()), request, timer);
        return;
      }
      promisesAwaitingResponse := promisesAwaitingResponse[id := timer];
      admitted := admitted + [id];
      thrown := None;
      CreatePreservesWellFormed(old(Abs()), request, timer);
    }

    /** Match an incoming response to its pending request and settle it. */
    method HandleResponse(response: Response) returns (thrown: Option<Error>)
      requires Valid()
      modifies this
      ensures Valid()
      ensures var s := RequestTable.HandleResponse(old(Abs()), response);
              Abs() == s.table && thrown == s.thrown
    {
      if !response.id.Key? {
        return Some(InvalidResponseId(response));
      }
      var id := response.id.id;
      if id !in promisesAwaitingResponse {
        return None;
      }
      if response.status == None {
        thrown := Reject(id, NoStatus);
      }
      if response.status == Some("error") {
        var message := if response.errorMessage.Some? then response.errorMessage else response.error;
        thrown := Reject(id, Rippled(message, response));
        return;
      }
      if response.status != Some("success") {
        thrown := Reject(id, UnrecognizedStatus(response.status, response));
        return;
      }
      thrown := Resolve(id, response.(status := None));
    }

    /** The callback of an armed timer firing: reject its request with a timeout error. */
    method FireTimer(timer: Timer) returns (thrown: Option<Error>)
      requires Valid() && timer in armed
      modifies this
      ensures Valid()
      ensures var s := Fire(old(Abs()), timer);
              Abs() == s.table && thrown == s.thrown
    {
      var (id, request) := armed[timer];
      thrown := Reject(id, Timeout(request, id));
    }

    method DeletePromise(id: Id)
      modifies this
      ensures promisesAwaitingResponse == old(promisesAwaitingResponse) - {id}
      ensures nextId == old(nextId) && armed == old(armed)
      ensures admitted == old(admitted) && settled == old(settled)
      ensures Abs() == RequestTable.DeletePromise(old(Abs()), id)
    {
      promisesAwaitingResponse := promisesAwaitingResponse - {id};
    }
  }
}
