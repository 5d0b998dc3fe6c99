/**
 * The pending-request table of the client's RequestManager, as a pure state
 * machine. A table maps each pending correlation id to the timer armed for
 * it; the runtime's armed timers, and ghost logs of every id admitted and
 * every settlement delivered, sit beside it so that "each pending request is
 * settled exactly once" can be stated and proved.
 *
 * The class in module Client changes its fields in place and is proved
 * against the functions here.
 */
module RequestTable {
  import opened Wrappers

  /** A correlation id, `string | number`: the keys 0 and "0" are different. */
  datatype Id = Str(s: string) | Num(n: int)

  /** The `id` field of an incoming response before it is checked. */
  datatype ResponseId =
    | Missing           // null or undefined
    | NotAKey           // present, but neither a string nor a number
    | Key(id: Id)

  /** A handle returned by setTimeout. */
  type Timer = nat

  /** An outgoing request: an optional caller-chosen id, the rest uninterpreted. */
  datatype Request = Request(id: Option<Id>, command: string, params: string)

  /** An incoming response; `result` stands for every field not named here. */
  datatype Response = Response(
    id: ResponseId,
    status: Option<string>,
    error: Option<string>,
    errorMessage: Option<string>,
    result: string)

  datatype Error =
    | NoExistingPromise(id: Id)                  // resolve/reject of an id that is not pending
    | AlreadyPending(id: Id, request: Request)   // createRequest with an id already pending
    | InvalidResponseId(response: Response)      // ResponseFormatError: valid id not found
    | NoStatus                                   // ResponseFormatError: response has no status
    | UnrecognizedStatus(status: Option<string>, response: Response)
    | Rippled(message: Option<string>, response: Response)
    | Timeout(request: Request, id: Id)
    | Connection(reason: string)                 // what callers pass to rejectAll

  /** What a request's promise is settled with. */
  datatype Outcome = Resolved(response: Response) | Rejected(error: Error)

  datatype Table = Table(
    nextId: int,
    pending: map<Id, Timer>,
    armed: map<Timer, (Id, Request)>,   // each armed timer, with the id and request its callback captured
    admitted: seq<Id>,                  // ids entered into `pending`, in order
    settled: seq<(Id, Outcome)>)        // settlements delivered, in order

  /** The result of an operation that may throw. */
  datatype Step = Step(table: Table, thrown: Option<Error>)

  /** The result of createRequest: the new table, the exception if any, the id and the wire request. */
  datatype Created = Created(table: Table, thrown: Option<Error>, id: Id, wire: Request)

  const Initial: Table := Table(0, map[], map[], [], [])

  /** How many times `id` occurs in an admission log. */
  function Admissions(log: seq<Id>, id: Id): nat
  {
    if log == [] then 0
    else Admissions(log[..|log| - 1], id) + (if log[|log| - 1] == id then 1 else 0)
  }

  /** How many settlements of `id` a settlement log holds. */
  function Settlements(log: seq<(Id, Outcome)>, id: Id): nat
  {
    if log == [] then 0
    else Settlements(log[..|log| - 1], id) + (if log[|log| - 1].0 == id then 1 else 0)
  }

  /** Every pending entry owns exactly one armed timer, and every armed timer belongs to a pending entry. */
  ghost predicate TimersMatch(t: Table)
  {
    && (forall id | id in t.pending :: t.pending[id] in t.armed && t.armed[t.pending[id]].0 == id)
    && (forall tm | tm in t.armed :: t.armed[tm].0 in t.pending && t.pending[t.armed[tm].0] == tm)
  }

  /** Every admission of an id has been settled once, except the one still pending. */
  ghost predicate SettledOnce(t: Table)
  {
    forall id :: Admissions(t.admitted, id) == Settlements(t.settled, id) + (if id in t.pending then 1 else 0)
  }

  ghost predicate WellFormed(t: Table)
  {
    TimersMatch(t) && SettledOnce(t)
  }

  /** resolve/reject: clear the timer, settle the promise, delete the entry; throw for an id not pending. */
  function Settle(t: Table, id: Id, o: Outcome): (s: Step)
    ensures s.thrown.Some? <==> id !in t.pending
    ensures id !in t.pending ==> s == Step(t, Some(NoExistingPromise(id)))
    ensures id in t.pending ==>
              && s.table.pending == t.pending - {id}
              && s.table.armed == t.armed - {t.pending[id]}
              && s.table.settled == t.settled + [(id, o)]
              && s.table.nextId == t.nextId && s.table.admitted == t.admitted
  {
    if id !in t.pending then Step(t, Some(NoExistingPromise(id)))
    else Step(t.(pending := t.pending - {id},
                 armed := t.armed - {t.pending[id]},
                 settled := t.settled + [(id, o)]), None)
  }

  function Resolve(t: Table, id: Id, response: Response): (s: Step)
    ensures s.thrown.Some? <==> id !in t.pending
    ensures id in t.pending ==> id !in s.table.pending && s.table.settled == t.settled + [(id, Resolved(response))]
  {
    Settle(t, id, Resolved(response))
  }

  function Reject(t: Table, id: Id, error: Error): (s: Step)
    ensures s.thrown.Some? <==> id !in t.pending
    ensures id in t.pending ==> id !in s.table.pending && s.table.settled == t.settled + [(id, Rejected(error))]
  {
    Settle(t, id, Rejected(error))
  }

  function DeletePromise(t: Table, id: Id): (r: Table)
    ensures id !in r.pending
    ensures forall x :: x in t.pending && x != id ==> x in r.pending && r.pending[x] == t.pending[x]
    ensures r.pending == t.pending - {id}
    ensures r == t.(pending := r.pending)
  {
    t.(pending := t.pending - {id})
  }

  /**
   * createRequest with `timer` the handle setTimeout returns: the id is the
   * request's own or the counter (which then advances, even if creation
   * fails); the timer is armed before the duplicate check and cleared again
   * when the id is already pending.
   */
  function CreateRequest(t: Table, request: Request, timer: Timer): (c: Created)
    ensures request.id == None ==> c.id == Num(t.nextId) && c.table.nextId == t.nextId + 1
    ensures request.id != None ==> c.id == request.id.value && c.table.nextId == t.nextId
    ensures c.wire == request.(id := Some(c.id))
    ensures c.id in t.pending && timer !in t.armed ==>
              c.thrown == Some(AlreadyPending(c.id, request)) && c.table == t.(nextId := c.table.nextId)
    ensures c.id !in t.pending ==>
              && c.thrown == None
              && c.table.pending == t.pending[c.id := timer]
              && c.table.armed == t.armed[timer := (c.id, request)]
              && c.table.admitted == t.admitted + [c.id]
              && c.table.settled == t.settled
  {
    var newId := if request.id.None? then Num(t.nextId) else request.id.value;
    var nextId := if request.id.None? then t.nextId + 1 else t.nextId;
    var wire := request.(id := Some(newId));
    var t1 := t.(nextId := nextId, armed := t.armed[timer := (newId, request)]);
    if newId in t1.pending then
      Created(t1.(armed := t1.armed - {timer}), Some(AlreadyPending(newId, request)), newId, wire)
    else
      Created(t1.(pending := t1.pending[newId := timer], admitted := t1.admitted + [newId]), None, newId, wire)
  }

  /**
   * How a response to a pending request is meant to settle it: no status is
   * a format error, "error" a remote error carrying error_message (else
   * error), "success" resolves with the response minus its status, and any
   * other status is a format error.
   */
  function Classify(response: Response): (o: Outcome)
    ensures o.Resolved? <==> response.status == Some("success")
    ensures o.Resolved? ==> o.response == response.(status := None)
    ensures o == Rejected(NoStatus) <==> response.status == None
    ensures o.Rejected? && o.error.Rippled? <==> response.status == Some("error")
  {
    match response.status
    case None => Rejected(NoStatus)
    case Some(status) =>
      if status == "success" then Resolved(response.(status := None))
      else if status == "error" then
        Rejected(Rippled(if response.errorMessage.Some? then response.errorMessage else response.error, response))
      else Rejected(UnrecognizedStatus(response.status, response))
  }

  /**
   * handleResponse as written: after the rejection for a missing status
   * there is no return, so control reaches the "not success" test and
   * rejects the same id again; that id is gone, so handleResponse throws.
   */
  function HandleResponse(t: Table, response: Response): (s: Step)
    ensures !response.id.Key? ==> s == Step(t, Some(InvalidResponseId(response)))
    ensures response.id.Key? && response.id.id !in t.pending ==> s == Step(t, None)
    ensures response.id.Key? && response.id.id in t.pending ==>
              var id := response.id.id;
              && s.table.pending == t.pending - {id}
              && s.table.settled == t.settled + [(id, Classify(response))]
              && s.table.armed == t.armed - {t.pending[id]}
              && s.table.nextId == t.nextId && s.table.admitted == t.admitted
              && s.thrown == (if response.status == None then Some(NoExistingPromise(id)) else None)
  {
    match response.id
    case Missing => Step(t, Some(InvalidResponseId(response)))
    case NotAKey => Step(t, Some(InvalidResponseId(response)))
    case Key(id) =>
      if id !in t.pending then Step(t, None)
      else
        var t1 := if response.status == None then Reject(t, id, NoStatus).table else t;
        if response.status == Some("error") then
          var message := if response.errorMessage.Some? then response.errorMessage else response.error;
          Reject(t1, id, Rippled(message, response))
        else if response.status != Some("success") then
          Reject(t1, id, UnrecognizedStatus(response.status, response))
        else
          Resolve(t1, id, response.(status := None))
  }

  /** The callback of an armed timer: reject the captured id with a timeout error. */
  function Fire(t: Table, timer: Timer): (s: Step)
    requires timer in t.armed
    ensures var (id, request) := t.armed[timer];
            && (s.thrown.Some? <==> id !in t.pending)
            && (id in t.pending ==>
                  id !in s.table.pending && s.table.settled == t.settled + [(id, Rejected(Timeout(request, id)))])
  {
    var (id, request) := t.armed[timer];
    Reject(t, id, Timeout(request, id))
  }

  /**
   * rejectAll visiting the pending ids in `order`: reject each, then delete
   * it; an exception from reject ends the walk.
   */
  function RejectAllIn(t: Table, order: seq<Id>, error: Error): (s: Step)
    ensures s.table.nextId == t.nextId && s.table.admitted == t.admitted
    ensures s.thrown.Some? ==> s.thrown.value.NoExistingPromise? && s.thrown.value.id in order
    ensures s.thrown.None? ==> forall id :: id in order ==> id !in s.table.pending
    decreases |order|
  {
    if order == [] then Step(t, None)
    else
      var s := RejectAllIn(t, order[..|order| - 1], error);
      if s.thrown.Some? then s
      else
        var id := order[|order| - 1];
        var r := Reject(s.table, id, error);
        if r.thrown.Some? then r else Step(DeletePromise(r.table, id), None)
  }

  /** A settlement log after rejectAll has rejected, in turn, each id of `order`. */
  function Rejections(log: seq<(Id, Outcome)>, order: seq<Id>, error: Error): seq<(Id, Outcome)>
  {
    if order == [] then log
    else Rejections(log, order[..|order| - 1], error) + [(order[|order| - 1], Rejected(error))]
  }

  ghost predicate Distinct(s: seq<Id>)
  {
    forall i, j | 0 <= i < j < |s| :: s[i] != s[j]
  }

  // ---------------------------------------------------------------------
  // Lemmas

  lemma AdmissionsAppend(log: seq<Id>, x: Id, id: Id)
    ensures Admissions(log + [x], id) == Admissions(log, id) + (if x == id then 1 else 0)
  {
    assert (log + [x])[..|log|] == log;
  }

  lemma SettlementsAppend(log: seq<(Id, Outcome)>, e: (Id, Outcome), id: Id)
    ensures Settlements(log + [e], id) == Settlements(log, id) + (if e.0 == id then 1 else 0)
  {
    assert (log + [e])[..|log|] == log;
  }

  /** Settling a pending id keeps the table well formed; settling an unknown id changes nothing. */
  lemma SettlePreservesWellFormed(t: Table, id: Id, o: Outcome)
    requires WellFormed(t)
    ensures WellFormed(Settle(t, id, o).table)
  {
    if id in t.pending {
      var t' := Settle(t, id, o).table;
      forall x
        ensures Admissions(t'.admitted, x) == Settlements(t'.settled, x) + (if x in t'.pending then 1 else 0)
      {
        SettlementsAppend(t.settled, (id, o), x);
      }
    }
  }

  /** A second settlement of the same id throws and leaves the table as the first one left it. */
  lemma SettleAtMostOnce(t: Table, id: Id, first: Outcome, second: Outcome)
    requires id in t.pending
    ensures Settle(t, id, first).thrown == None
    ensures Settle(t, id, first).table.settled == t.settled + [(id, first)]
    ensures var t' := Settle(t, id, first).table;
            Settle(t', id, second) == Step(t', Some(NoExistingPromise(id)))
  {
  }

  /** createRequest with a fresh timer keeps the table well formed. */
  lemma CreatePreservesWellFormed(t: Table, request: Request, timer: Timer)
    requires WellFormed(t) && timer !in t.armed
    ensures WellFormed(CreateRequest(t, request, timer).table)
  {
    var c := CreateRequest(t, request, timer);
    if c.id in t.pending {
      assert c.table.armed == t.armed;
    } else {
      assert c.table.pending == t.pending[c.id := timer] && c.table.armed == t.armed[timer := (c.id, request)];
      assert TimersMatch(c.table);
      forall x
        ensures Admissions(c.table.admitted, x) == Settlements(c.table.settled, x) + (if x in c.table.pending then 1 else 0)
      {
        AdmissionsAppend(t.admitted, c.id, x);
      }
    }
  }

  /** A duplicate id leaves no timer armed and no entry changed, only the counter. */
  lemma DuplicateLeavesTableUnchanged(t: Table, request: Request, timer: Timer)
    requires WellFormed(t) && timer !in t.armed
    requires request.id.Some? && request.id.value in t.pending
    ensures CreateRequest(t, request, timer) == Created(t, Some(AlreadyPending(request.id.value, request)), request.id.value, request)
  {
  }

  /** One visit of rejectAll's walk to a pending id: the reject settles it and the delete after it finds nothing. */
  lemma RejectVisit(t: Table, id: Id, error: Error)
    requires id in t.pending
    ensures var r := Reject(t, id, error);
            && r.thrown == None
            && DeletePromise(r.table, id) == r.table
            && r.table.pending.Keys == t.pending.Keys - {id}
            && r.table.settled == t.settled + [(id, Rejected(error))]
            && r.table.nextId == t.nextId && r.table.admitted == t.admitted
  {
    var r := Reject(t, id, error);
    assert r.table.pending - {id} == r.table.pending;
  }

  /** Bookkeeping of rejectAll's walk: visiting one more of the ids still pending. */
  lemma WalkStep(all: set<Id>, order: seq<Id>, left: set<Id>, id: Id, error: Error)
    requires Distinct(order) && (set x | x in order) !! left && (set x | x in order) + left == all
    requires id in left
    ensures Distinct(order + [id])
    ensures (set x | x in order + [id]) !! left - {id}
    ensures (set x | x in order + [id]) + (left - {id}) == all
    ensures forall log :: Rejections(log, order + [id], error) == Rejections(log, order, error) + [(id, Rejected(error))]
  {
    assert (order + [id])[..|order|] == order;
    assert (set x | x in order + [id]) == (set x | x in order) + {id};
  }

  /** Walking distinct pending ids, rejectAll rejects each once, in the walk's order, and throws nothing. */
  lemma {:induction false} RejectAllInSettlesEach(t: Table, order: seq<Id>, error: Error)
    requires Distinct(order)
    requires forall i | 0 <= i < |order| :: order[i] in t.pending
    ensures var s := RejectAllIn(t, order, error);
            && s.thrown == None
            && s.table.pending.Keys == t.pending.Keys - (set x | x in order)
            && s.table.settled == Rejections(t.settled, order, error)
            && s.table.nextId == t.nextId && s.table.admitted == t.admitted
    decreases |order|
  {
    if order != [] {
      var init := order[..|order| - 1];
      var id := order[|order| - 1];
      RejectAllInSettlesEach(t, init, error);
      var s := RejectAllIn(t, init, error);
      assert id !in (set x | x in init) by {
        forall i | 0 <= i < |init| ensures init[i] != id {
          assert order[i] != order[|order| - 1];
        }
      }
      RejectVisit(s.table, id, error);
      assert RejectAllIn(t, order, error) == Step(Reject(s.table, id, error).table, None);
      assert (set x | x in order) == (set x | x in init) + {id};
    }
  }

  /** rejectAll over an enumeration of the pending ids empties the table and disarms every timer. */
  lemma RejectAllClears(t: Table, order: seq<Id>, error: Error)
    requires WellFormed(t) && Distinct(order)
    requires (set x | x in order) == t.pending.Keys
    ensures var s := RejectAllIn(t, order, error);
            && s.thrown == None
            && s.table.pending == map[]
            && s.table.armed == map[]
            && s.table.settled == Rejections(t.settled, order, error)
            && s.table.nextId == t.nextId && s.table.admitted == t.admitted
            && WellFormed(s.table)
  {
    RejectAllInSettlesEach(t, order, error);
    RejectAllInPreservesWellFormed(t, order, error);
  }

  /** A response settles its pending request once; it throws only for a bad id or, by the quirk, a missing status. */
  lemma HandleResponsePreservesWellFormed(t: Table, response: Response)
    requires WellFormed(t)
    ensures WellFormed(HandleResponse(t, response).table)
  {
    if response.id.Key? && response.id.id in t.pending {
      var id := response.id.id;
      var o := if response.status == None then Rejected(NoStatus) else Classify(response);
      var t' := Settle(t, id, o).table;
      SettlePreservesWellFormed(t, id, o);
      if response.status == None {
        assert Reject(t, id, NoStatus).table == t';
        assert Reject(t', id, UnrecognizedStatus(None, response)).table == t';
      } else if response.status == Some("error") {
        assert HandleResponse(t, response).table == Reject(t, id, o.error).table;
      } else if response.status != Some("success") {
        assert HandleResponse(t, response).table == Reject(t, id, o.error).table;
      } else {
        assert HandleResponse(t, response).table == Resolve(t, id, o.response).table;
      }
    }
  }

  /** A timer that fires settles its own request with a timeout error and never throws. */
  lemma FireSettlesItsRequest(t: Table, timer: Timer)
    requires WellFormed(t) && timer in t.armed
    ensures var (id, request) := t.armed[timer];
            var s := Fire(t, timer);
            && s.thrown == None
            && id !in s.table.pending
            && timer !in s.table.armed
            && s.table.settled == t.settled + [(id, Rejected(Timeout(request, id)))]
            && WellFormed(s.table)
  {
    var (id, request) := t.armed[timer];
    SettlePreservesWellFormed(t, id, Rejected(Timeout(request, id)));
  }

  // ---------------------------------------------------------------------
  // Runs of events

  /** Everything that can happen to the table: calls on it and timers firing. */
  datatype Event =
    | CreateEvent(request: Request, timer: Timer)
    | ResolveEvent(id: Id, response: Response)
    | RejectEvent(id: Id, error: Error)
    | RejectAllEvent(order: seq<Id>, error: Error)
    | ResponseEvent(response: Response)
    | TimerEvent(timer: Timer)

  /** setTimeout hands out a timer that is not armed, and only an armed timer fires. */
  predicate Possible(t: Table, e: Event)
  {
    match e
    case CreateEvent(_, timer) => timer !in t.armed
    case TimerEvent(timer) => timer in t.armed
    case _ => true
  }

  function Apply(t: Table, e: Event): Table
    requires Possible(t, e)
  {
    match e
    case CreateEvent(request, timer) => CreateRequest(t, request, timer).table
    case ResolveEvent(id, response) => Resolve(t, id, response).table
    case RejectEvent(id, error) => Reject(t, id, error).table
    case RejectAllEvent(order, error) => RejectAllIn(t, order, error).table
    case ResponseEvent(response) => HandleResponse(t, response).table
    case TimerEvent(timer) => Fire(t, timer).table
  }

  /** The table after a run of events; an event that cannot happen in the state it meets is skipped. */
  function Run(t: Table, events: seq<Event>): Table
    decreases |events|
  {
    if events == [] then t
    else Run(if Possible(t, events[0]) then Apply(t, events[0]) else t, events[1..])
  }

  /** rejectAll keeps the table well formed whatever order it walks, even one that makes it throw. */
  lemma {:induction false} RejectAllInPreservesWellFormed(t: Table, order: seq<Id>, error: Error)
    requires WellFormed(t)
    ensures WellFormed(RejectAllIn(t, order, error).table)
    decreases |order|
  {
    if order != [] {
      var init := order[..|order| - 1];
      RejectAllInPreservesWellFormed(t, init, error);
      var s := RejectAllIn(t, init, error);
      if s.thrown.None? {
        var id := order[|order| - 1];
        SettlePreservesWellFormed(s.table, id, Rejected(error));
        if id in s.table.pending {
          RejectVisit(s.table, id, error);
        }
      }
    }
  }

  lemma ApplyPreservesWellFormed(t: Table, e: Event)
    requires WellFormed(t) && Possible(t, e)
    ensures WellFormed(Apply(t, e))
  {
    match e
    case CreateEvent(request, timer) => CreatePreservesWellFormed(t, request, timer);
    case ResolveEvent(id, response) => SettlePreservesWellFormed(t, id, Resolved(response));
    case RejectEvent(id, error) => SettlePreservesWellFormed(t, id, Rejected(error));
    case RejectAllEvent(order, error) => RejectAllInPreservesWellFormed(t, order, error);
    case ResponseEvent(response) => HandleResponsePreservesWellFormed(t, response);
    case TimerEvent(timer) => FireSettlesItsRequest(t, timer);
  }

  /**
   * Exactly-once settlement over any run from the initial table: each id has
   * been settled as many times as it was admitted, less one while it is
   * still pending, so no admission is ever settled twice.
   */
  lemma {:induction false} RunSettlesEachAdmissionOnce(t: Table, events: seq<Event>)
    requires WellFormed(t)
    ensures var t' := Run(t, events);
            && WellFormed(t')
            && forall id :: Settlements(t'.settled, id) <= Admissions(t'.admitted, id)
    decreases |events|
  {
    if events != [] {
      var next := if Possible(t, events[0]) then Apply(t, events[0]) else t;
      if Possible(t, events[0]) {
        ApplyPreservesWellFormed(t, events[0]);
      }
      RunSettlesEachAdmissionOnce(next, events[1..]);
    }
  }

  lemma InitialWellFormed()
    ensures WellFormed(Initial)
  {
  }
}
