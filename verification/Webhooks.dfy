/** Webhook delivery: `WebhookDispatcherService` fans an event out to jobs, and
    `WebhookProcessor` runs each job, with retries, against its own delivery row. */
module Webhooks {
  import opened Wrappers
  import opened Runs
  import opened Faults

  datatype DeliveryStatus = Success | Pending | Failed

  datatype Delivery = Delivery(endpoint: string, status: DeliveryStatus, statusCode: Option<int>, attempt: nat)

  /** What the endpoint makes of one POST. Axios throws for anything but an accepted response. */
  datatype Answer = Accepted(code: int) | Rejected(code: int) | NoResponse

  datatype Weather = Weather(create: Fault, updateData: Fault, answer: Answer, recordSuccess: Fault,
                             recordFailure: Fault)

  predicate Calm(w: Weather) {
    w.create.Works? && w.updateData.Works? && w.recordSuccess.Works? && w.recordFailure.Works?
  }

  function CodeOf(a: Answer): Option<int> {
    match a
    case Accepted(code) => Some(code)
    case Rejected(code) => Some(code)
    case NoResponse => None
  }

  /** `WebhookDeliveryService`: the webhook_deliveries table; a row's id is its position. */
  class WebhookDeliveryService {
    var rows: seq<Delivery>

    constructor ()
      ensures rows == []
    {
      rows := [];
    }

    method CreatePending(endpoint: string, f: Fault) returns (r: Result<nat, ()>)
      modifies this
      ensures rows == if f.FailsBefore? then old(rows) else old(rows) + [Delivery(endpoint, Pending, None, 0)]
      ensures r == if f.Works? then Ok(|old(rows)|) else Err(())
    {
      if f.FailsBefore? { return Err(()); }
      rows := rows + [Delivery(endpoint, Pending, None, 0)];
      r := if f.Works? then Ok(|rows| - 1) else Err(());
    }

    /** The update, then, for a success, one more read that can fail on its own. */
    method RecordAttempt(id: nat, status: DeliveryStatus, statusCode: Option<int>, attempt: nat, f: Fault)
      returns (ok: bool)
      modifies this
      ensures rows == if f.FailsBefore? then old(rows) else Recorded(old(rows), id, status, statusCode, attempt)
      ensures ok == f.Works?
    {
      if f.FailsBefore? { return false; }
      if id < |rows| { rows := rows[id := rows[id].(status := status, statusCode := statusCode, attempt := attempt)]; }
      ok := f.Works?;
    }
  }

  function Recorded(rows: seq<Delivery>, id: nat, status: DeliveryStatus, statusCode: Option<int>, attempt: nat)
    : seq<Delivery>
  {
    if id < |rows| then rows[id := rows[id].(status := status, statusCode := statusCode, attempt := attempt)] else rows
  }

  /** How one run of a job ended. */
  datatype Ran = Ran(rows: seq<Delivery>, deliveryId: Option<nat>, posted: bool, returned: bool)

  /** No retry follows: the endpoint is gone, or this was the last attempt. */
  predicate IsFinal(statusCode: Option<int>, attemptsMade: nat, attempts: nat) {
    statusCode == Some(404) || attemptsMade + 1 >= attempts
  }

  /** The catch block. */
  function Fail(rows: seq<Delivery>, id: nat, statusCode: Option<int>, attemptsMade: nat, attempts: nat, w: Weather)
    : Ran
  {
    var status := if IsFinal(statusCode, attemptsMade, attempts) then Failed else Pending;
    Ran(if w.recordFailure.FailsBefore? then rows else Recorded(rows, id, status, statusCode, attemptsMade),
        Some(id), true, w.recordFailure.Works? && statusCode == Some(404))
  }

  /** The try block and what follows, for a job that has its row. */
  function Deliver(rows: seq<Delivery>, id: nat, attemptsMade: nat, attempts: nat, w: Weather): Ran {
    match w.answer
    case Accepted(code) =>
      if w.recordSuccess.FailsBefore? then Fail(rows, id, None, attemptsMade, attempts, w)
      else
        var rows1 := Recorded(rows, id, Success, Some(code), attemptsMade);
        if w.recordSuccess.Works? then Ran(rows1, Some(id), true, true)
        else Fail(rows1, id, None, attemptsMade, attempts, w)
    case Rejected(code) => Fail(rows, id, Some(code), attemptsMade, attempts, w)
    case NoResponse => Fail(rows, id, None, attemptsMade, attempts, w)
  }

  function Process(rows: seq<Delivery>, endpoint: string, deliveryId: Option<nat>, attemptsMade: nat, attempts: nat,
                   w: Weather): Ran
  {
    if deliveryId.Some? then Deliver(rows, deliveryId.value, attemptsMade, attempts, w)
    else if w.create.FailsBefore? then Ran(rows, None, false, false)
    else
      var rows1 := rows + [Delivery(endpoint, Pending, None, 0)];
      if w.create.CutAfter? || w.updateData.FailsBefore? then Ran(rows1, None, false, false)
      else if w.updateData.CutAfter? then Ran(rows1, Some(|rows|), false, false)
      else Deliver(rows1, |rows|, attemptsMade, attempts, w)
  }

  /** A BullMQ job as the processor sees it. */
  class BullJob {
    const endpoint: string
    const attempts: nat
    var deliveryId: Option<nat>
    var attemptsMade: nat

    constructor (endpoint: string, attempts: nat)
      ensures this.endpoint == endpoint && this.attempts == attempts && deliveryId.None? && attemptsMade == 0
    {
      this.endpoint, this.attempts, deliveryId, attemptsMade := endpoint, attempts, None, 0;
    }
  }

  class WebhookProcessor {
    const deliveries: WebhookDeliveryService

    constructor (deliveries: WebhookDeliveryService)
      ensures this.deliveries == deliveries
    {
      this.deliveries := deliveries;
    }

    /** `process`: `returned` is a normal return, its negation a throw. */
    method Run(job: BullJob, w: Weather) returns (posted: bool, returned: bool)
      requires job as object != deliveries
      modifies deliveries, job`deliveryId
      ensures Ran(deliveries.rows, job.deliveryId, posted, returned)
                == Process(old(deliveries.rows), job.endpoint, old(job.deliveryId), job.attemptsMade, job.attempts, w)
    {
      posted, returned := false, false;
      var id: nat;
      if job.deliveryId.Some? {
        id := job.deliveryId.value;
      } else {
        var created := deliveries.CreatePending(job.endpoint, w.create);
        if created.Err? { return; }
        id := created.value;
        if w.updateData.FailsBefore? { return; }
        job.deliveryId := Some(id);
        if w.updateData.CutAfter? { return; }
      }
      posted := true;
      var statusCode := None;
      match w.answer {
        case Accepted(code) =>
          var ok := deliveries.RecordAttempt(id, Success, Some(code), job.attemptsMade, w.recordSuccess);
          if ok { return true, true; }
        case Rejected(code) => statusCode := Some(code);
        case NoResponse =>
      }
      var noRetry := statusCode == Some(404);
      var isFinal := noRetry || job.attemptsMade + 1 >= job.attempts;
      var status := if isFinal then Failed else Pending;
      var recorded := deliveries.RecordAttempt(id, status, statusCode, job.attemptsMade, w.recordFailure);
      returned := recorded && noRetry;
    }
  }

  // ---- Fan-out ----

  datatype Endpoint = Endpoint(id: string, org: string, isActive: bool, events: set<string>)

  predicate Subscribed(e: Endpoint, org: string, event: string) {
    e.org == org && e.isActive && event in e.events
  }

  function Recipients(endpoints: seq<Endpoint>, org: string, event: string): seq<string> {
    if endpoints == [] then []
    else
      var n := |endpoints| - 1;
      Recipients(endpoints[..n], org, event) + if Subscribed(endpoints[n], org, event) then [endpoints[n].id] else []
  }

  class WebhookDispatcherService {
    const endpoints: seq<Endpoint>
    var queue: seq<string>      // the endpoints of the jobs added, in order

    constructor (endpoints: seq<Endpoint>)
      ensures this.endpoints == endpoints && queue == []
    {
      this.endpoints, queue := endpoints, [];
    }

    method Dispatch(org: string, event: string)
      modifies this
      ensures queue == old(queue) + Recipients(endpoints, org, event)
    {
      var i := 0;
      while i < |endpoints|
        invariant 0 <= i <= |endpoints|
        invariant queue == old(queue) + Recipients(endpoints[..i], org, event)
      {
        assert endpoints[..i + 1][..i] == endpoints[..i];
        if Subscribed(endpoints[i], org, event) { queue := queue + [endpoints[i].id]; }
        i := i + 1;
      }
      assert endpoints[..|endpoints|] == endpoints;
    }
  }

  // ---- All jobs of a dispatch, their runs interleaved in any order ----

  datatype JobState = Queued | Done | Exhausted

  /** A job, and its history: posts made, runs that stopped between createPending and updateData,
      and the answers received. */
  datatype Job = Job(endpoint: string, attempts: nat, deliveryId: Option<nat>, attemptsMade: nat, state: JobState,
                     posts: nat, cuts: nat, answers: seq<Answer>)

  function NewJob(endpoint: string): Job {
    Job(endpoint, 3, None, 0, Queued, 0, 0, [])
  }

  /** The table, which job inserted each row, and the jobs. */
  datatype System = System(rows: seq<Delivery>, owners: seq<nat>, jobs: seq<Job>)

  datatype Event = RunJob(job: nat, weather: Weather)

  predicate Enabled(s: System, e: Event) {
    e.job < |s.jobs| && s.jobs[e.job].state.Queued?
  }

  /** BullMQ: a return completes the job; a throw retries it while attempts remain. */
  function Settle(j: Job, r: Ran, rowAdded: bool, w: Weather): Job {
    j.(deliveryId := r.deliveryId,
       attemptsMade := if r.returned then j.attemptsMade else j.attemptsMade + 1,
       state := if r.returned then Done else if j.attemptsMade + 1 < j.attempts then Queued else Exhausted,
       posts := if r.posted then j.posts + 1 else j.posts,
       cuts := if rowAdded && r.deliveryId.None? then j.cuts + 1 else j.cuts,
       answers := if r.posted then j.answers + [w.answer] else j.answers)
  }

  function Apply(s: System, e: Event): System {
    if !Enabled(s, e) then s else
    var j := s.jobs[e.job];
    var r := Process(s.rows, j.endpoint, j.deliveryId, j.attemptsMade, j.attempts, e.weather);
    var rowAdded := |r.rows| > |s.rows|;
    System(r.rows, if rowAdded then s.owners + [e.job] else s.owners,
           s.jobs[e.job := Settle(j, r, rowAdded, e.weather)])
  }

  function Queue(): Machine<System, Event> {
    Machine((s, e) => Enabled(s, e), (s, e) => Apply(s, e))
  }

  function Started(endpoints: seq<string>): System {
    System([], [], seq(|endpoints|, i requires 0 <= i < |endpoints| => NewJob(endpoints[i])))
  }

  // ---- With failures anywhere ----

  predicate OwnsRow(s: System, i: nat, r: nat)
    requires |s.owners| == |s.rows|
  {
    r < |s.rows| && s.owners[r] == i
  }

  predicate Shape(s: System) {
    && |s.owners| == |s.rows|
    && (forall r :: 0 <= r < |s.rows| ==> s.owners[r] < |s.jobs| && s.rows[r].endpoint == s.jobs[s.owners[r]].endpoint)
    && (forall i :: 0 <= i < |s.jobs| && s.jobs[i].deliveryId.Some? ==> OwnsRow(s, i, s.jobs[i].deliveryId.value))
  }

  predicate Counts(s: System) {
    forall i :: 0 <= i < |s.jobs| ==>
      var j := s.jobs[i];
      && j.attempts == 3
      && (j.state.Queued? ==> j.attemptsMade < j.attempts)
      && j.posts <= j.attemptsMade + (if j.state.Done? then 1 else 0) <= j.attempts
      && multiset(s.owners)[i] == j.cuts + (if j.deliveryId.Some? then 1 else 0)
  }

  /** A row says SUCCESS only if its job's endpoint gave that very answer. */
  predicate Truthful(s: System)
    requires Shape(s)
  {
    forall r :: 0 <= r < |s.rows| && s.rows[r].status.Success? ==>
      s.rows[r].statusCode.Some? && Accepted(s.rows[r].statusCode.value) in s.jobs[s.owners[r]].answers
  }

  /** A run adds at most one row, and knows it as its own unless it stops before noting it. */
  lemma ProcessSize(rows: seq<Delivery>, endpoint: string, deliveryId: Option<nat>, made: nat, attempts: nat,
                    w: Weather)
    ensures var p := Process(rows, endpoint, deliveryId, made, attempts, w);
            && |rows| <= |p.rows| <= |rows| + 1
            && (|p.rows| > |rows| ==> deliveryId.None? && (p.deliveryId.None? || p.deliveryId == Some(|rows|)))
            && (|p.rows| == |rows| ==> p.deliveryId == deliveryId)
            && (p.returned ==> p.posted)
  {}

  /** A run leaves every row but its own, and the endpoints of all. */
  lemma ProcessFrame(rows: seq<Delivery>, endpoint: string, deliveryId: Option<nat>, made: nat, attempts: nat,
                     w: Weather)
    ensures var p := Process(rows, endpoint, deliveryId, made, attempts, w);
            && |rows| <= |p.rows| && (|p.rows| > |rows| ==> p.rows[|rows|].endpoint == endpoint)
            && (forall r :: 0 <= r < |rows| ==> p.rows[r].endpoint == rows[r].endpoint)
            && (forall r :: 0 <= r < |rows| && Some(r) != deliveryId ==> p.rows[r] == rows[r])
  {}

  /** What a run that gets to its post leaves in its row, whichever writes fail: the success, unless
      the catch block comes after it and takes effect; it throws unless the success, or a 404's
      failure, was recorded without a failure. */
  lemma DeliverSets(rows: seq<Delivery>, id: nat, made: nat, attempts: nat, w: Weather)
    requires id < |rows|
    ensures var p := Deliver(rows, id, made, attempts, w);
            var code := if w.answer.Rejected? then Some(w.answer.code) else None;
            var last := code == Some(404) || made + 1 >= attempts;
            && p.deliveryId == Some(id) && p.posted
            && (p.returned <==> (w.answer.Accepted? && w.recordSuccess.Works?)
                                || (w.answer == Rejected(404) && w.recordFailure.Works?))
            && p.rows ==
                 if w.answer.Accepted? && !w.recordSuccess.FailsBefore?
                    && (w.recordSuccess.Works? || w.recordFailure.FailsBefore?)
                 then rows[id := Delivery(rows[id].endpoint, Success, Some(w.answer.code), made)]
                 else if w.recordFailure.FailsBefore? then rows
                 else rows[id := Delivery(rows[id].endpoint, if last then Failed else Pending, code, made)]
  {}

  /** A run that gets no row, or cannot note it, neither posts nor returns; a row it inserted is PENDING. */
  lemma NoPost(rows: seq<Delivery>, endpoint: string, made: nat, attempts: nat, w: Weather)
    requires !(w.create.Works? && w.updateData.Works?)
    ensures var p := Process(rows, endpoint, None, made, attempts, w);
            && !p.posted && !p.returned
            && p.rows == (if w.create.FailsBefore? then rows else rows + [Delivery(endpoint, Pending, None, 0)])
            && p.deliveryId == if w.create.Works? && w.updateData.CutAfter? then Some(|rows|) else None
  {}

  lemma ProcessTruthful(rows: seq<Delivery>, endpoint: string, deliveryId: Option<nat>, made: nat, attempts: nat,
                        w: Weather)
    requires deliveryId.Some? ==> deliveryId.value < |rows|
    ensures var p := Process(rows, endpoint, deliveryId, made, attempts, w);
            forall r :: 0 <= r < |p.rows| && p.rows[r].status.Success? ==>
              || (r < |rows| && p.rows[r] == rows[r])
              || (p.posted && p.deliveryId == Some(r) && p.rows[r].statusCode.Some?
                  && w.answer == Accepted(p.rows[r].statusCode.value))
  {}

  lemma StepShape(s: System, e: Event)
    requires Shape(s) && Enabled(s, e)
    ensures Shape(Apply(s, e))
  {
    var j := s.jobs[e.job];
    var s' := Apply(s, e);
    ProcessSize(s.rows, j.endpoint, j.deliveryId, j.attemptsMade, j.attempts, e.weather);
    ProcessFrame(s.rows, j.endpoint, j.deliveryId, j.attemptsMade, j.attempts, e.weather);
    forall r | 0 <= r < |s'.rows|
      ensures s'.owners[r] < |s'.jobs| && s'.rows[r].endpoint == s'.jobs[s'.owners[r]].endpoint
    {
      if r < |s.rows| { assert s'.owners[r] == s.owners[r] && s'.rows[r].endpoint == s.rows[r].endpoint; }
    }
    forall i | 0 <= i < |s'.jobs| && s'.jobs[i].deliveryId.Some?
      ensures OwnsRow(s', i, s'.jobs[i].deliveryId.value)
    {
      if s'.jobs[i].deliveryId == s.jobs[i].deliveryId { assert OwnsRow(s, i, s.jobs[i].deliveryId.value); }
    }
  }

  lemma StepCounts(s: System, e: Event)
    requires Shape(s) && Counts(s) && Enabled(s, e)
    ensures Counts(Apply(s, e))
  {
    var j := s.jobs[e.job];
    ProcessSize(s.rows, j.endpoint, j.deliveryId, j.attemptsMade, j.attempts, e.weather);
  }

  lemma StepTruthful(s: System, e: Event)
    requires Shape(s) && Truthful(s) && Enabled(s, e) && Shape(Apply(s, e))
    ensures Truthful(Apply(s, e))
  {
    var j := s.jobs[e.job];
    ProcessSize(s.rows, j.endpoint, j.deliveryId, j.attemptsMade, j.attempts, e.weather);
    ProcessFrame(s.rows, j.endpoint, j.deliveryId, j.attemptsMade, j.attempts, e.weather);
    ProcessTruthful(s.rows, j.endpoint, j.deliveryId, j.attemptsMade, j.attempts, e.weather);
    var s' := Apply(s, e);
    forall r | 0 <= r < |s'.rows| && s'.rows[r].status.Success?
      ensures s'.rows[r].statusCode.Some? && Accepted(s'.rows[r].statusCode.value) in s'.jobs[s'.owners[r]].answers
    {
      if r < |s.rows| && s'.rows[r] == s.rows[r] {
        assert s.owners[r] == s'.owners[r];
        assert forall a :: a in s.jobs[s.owners[r]].answers ==> a in s'.jobs[s.owners[r]].answers;
      }
    }
  }

  predicate Inv(s: System) {
    Shape(s) && Counts(s) && Truthful(s)
  }

  /** With database and queue failures anywhere, in every interleaving: a job posts at most
      three times, inserts one row for each of its runs that stopped between createPending and
      updateData and one more once it has noted its row, and a row reads SUCCESS only if the
      endpoint really answered with the recorded 2xx code. */
  lemma DeliveryUnderFailures(endpoints: seq<string>, evs: seq<Event>)
    requires Legal(Queue(), Started(endpoints), evs)
    ensures var s := After(Queue(), Started(endpoints), evs);
            && |s.owners| == |s.rows|
            && (forall i :: 0 <= i < |s.jobs| ==>
                  && s.jobs[i].posts <= 3
                  && multiset(s.owners)[i] == s.jobs[i].cuts + if s.jobs[i].deliveryId.Some? then 1 else 0)
            && (forall r :: 0 <= r < |s.rows| ==>
                  && s.owners[r] < |s.jobs|
                  && (s.rows[r].status.Success? ==>
                        && s.rows[r].statusCode.Some?
                        && Accepted(s.rows[r].statusCode.value) in s.jobs[s.owners[r]].answers))
  {
    forall s, e | Inv(s) && Enabled(s, e)
      ensures Inv(Apply(s, e))
    {
      StepShape(s, e);
      StepCounts(s, e);
      StepTruthful(s, e);
    }
    assert Inv(Started(endpoints));
    Invariant(Queue(), s => Inv(s), Started(endpoints), evs);
  }

  /** A finished job is never run again, so its row keeps its final status for ever. */
  lemma {:induction false} FinalRowsFrozen(s: System, evs: seq<Event>, r: nat)
    requires Shape(s) && Legal(Queue(), s, evs) && r < |s.rows| && !s.jobs[s.owners[r]].state.Queued?
    ensures var s' := After(Queue(), s, evs); r < |s'.rows| && s'.rows[r] == s.rows[r]
    decreases |evs|
  {
    if evs != [] {
      var e := evs[0];
      var j := s.jobs[e.job];
      StepShape(s, e);
      ProcessFrame(s.rows, j.endpoint, j.deliveryId, j.attemptsMade, j.attempts, e.weather);
      assert OwnsRow(s, s.owners[r], r) && e.job != s.owners[r];
      FinalRowsFrozen(Apply(s, e), evs[1..], r);
    }
  }

  // ---- What a row shows ----

  /** The run gets to its post. */
  predicate Posts(deliveryId: Option<nat>, w: Weather) {
    deliveryId.Some? || (w.create.Works? && w.updateData.Works?)
  }

  /** The code the catch block sees: a failed record is no answer of the endpoint. */
  function SeenCode(a: Answer): Option<int> {
    if a.Rejected? then Some(a.code) else None
  }

  /** The statuses a posting run records, as far as the records take effect: SUCCESS for an
      acceptance; and if that did not come off, or there was none, FAILED or PENDING. */
  function Took(made: nat, attempts: nat, w: Weather): seq<DeliveryStatus> {
    (if w.answer.Accepted? && !w.recordSuccess.FailsBefore? then [Success] else [])
    + (if (w.answer.Accepted? && w.recordSuccess.Works?) || w.recordFailure.FailsBefore? then []
       else [if IsFinal(SeenCode(w.answer), made, attempts) then Failed else Pending])
  }

  /** The records of job i that took effect in a run, in order, read off the events. */
  function Records(endpoints: seq<string>, evs: seq<Event>, i: nat): seq<DeliveryStatus> {
    if evs == [] then []
    else
      var n := |evs| - 1;
      var s := After(Queue(), Started(endpoints), evs[..n]);
      Records(endpoints, evs[..n], i)
      + if evs[n].job == i && i < |s.jobs| && Posts(s.jobs[i].deliveryId, evs[n].weather)
        then Took(s.jobs[i].attemptsMade, s.jobs[i].attempts, evs[n].weather) else []
  }

  function LastOf(records: seq<DeliveryStatus>, otherwise: DeliveryStatus): DeliveryStatus {
    if records == [] then otherwise else records[|records| - 1]
  }

  lemma LastOfJoin(a: seq<DeliveryStatus>, b: seq<DeliveryStatus>, d: DeliveryStatus)
    ensures LastOf(a + b, d) == LastOf(b, LastOf(a, d))
  {}

  lemma DeliverShows(rows: seq<Delivery>, id: nat, made: nat, attempts: nat, w: Weather)
    requires id < |rows|
    ensures var p := Deliver(rows, id, made, attempts, w);
            |p.rows| == |rows| && p.rows[id].status == LastOf(Took(made, attempts, w), rows[id].status)
  {}

  lemma ProcessShows(rows: seq<Delivery>, endpoint: string, deliveryId: Option<nat>, made: nat, attempts: nat,
                     w: Weather)
    requires deliveryId.Some? ==> deliveryId.value < |rows|
    ensures var p := Process(rows, endpoint, deliveryId, made, attempts, w);
            if Posts(deliveryId, w) then
              var id := if deliveryId.Some? then deliveryId.value else |rows|;
              && p.deliveryId == Some(id) && id < |p.rows|
              && p.rows[id].status
                   == LastOf(Took(made, attempts, w), if deliveryId.Some? then rows[id].status else Pending)
            else
              && (p.deliveryId.Some? ==> p.deliveryId == Some(|rows|) && |rows| < |p.rows|)
              && (|p.rows| > |rows| ==> p.rows[|rows|].status == Pending)
  {
    if Posts(deliveryId, w) {
      if deliveryId.Some? {
        DeliverShows(rows, deliveryId.value, made, attempts, w);
      } else {
        DeliverShows(rows + [Delivery(endpoint, Pending, None, 0)], |rows|, made, attempts, w);
      }
    }
  }

  /** Job i's own row shows its last record, PENDING before any; rows it lost sight of stay PENDING. */
  predicate JobShows(s: System, i: nat, records: seq<DeliveryStatus>)
    requires Shape(s) && i < |s.jobs|
  {
    && (s.jobs[i].deliveryId.None? ==> records == [])
    && forall r :: 0 <= r < |s.rows| && s.owners[r] == i ==>
         s.rows[r].status == if s.jobs[i].deliveryId == Some(r) then LastOf(records, Pending) else Pending
  }

  lemma OtherJobShows(s: System, e: Event, i: nat, records: seq<DeliveryStatus>)
    requires Shape(s) && Enabled(s, e) && i < |s.jobs| && e.job != i && JobShows(s, i, records)
    ensures Shape(Apply(s, e)) && JobShows(Apply(s, e), i, records)
  {
    var j := s.jobs[e.job];
    StepShape(s, e);
    ProcessSize(s.rows, j.endpoint, j.deliveryId, j.attemptsMade, j.attempts, e.weather);
    ProcessFrame(s.rows, j.endpoint, j.deliveryId, j.attemptsMade, j.attempts, e.weather);
    if j.deliveryId.Some? { assert OwnsRow(s, e.job, j.deliveryId.value); }
  }

  lemma OwnJobShows(s: System, e: Event, records: seq<DeliveryStatus>)
    requires Shape(s) && Enabled(s, e) && JobShows(s, e.job, records)
    ensures var j := s.jobs[e.job];
            var more := if Posts(j.deliveryId, e.weather) then Took(j.attemptsMade, j.attempts, e.weather) else [];
            Shape(Apply(s, e)) && JobShows(Apply(s, e), e.job, records + more)
  {
    var j := s.jobs[e.job];
    StepShape(s, e);
    ProcessSize(s.rows, j.endpoint, j.deliveryId, j.attemptsMade, j.attempts, e.weather);
    ProcessFrame(s.rows, j.endpoint, j.deliveryId, j.attemptsMade, j.attempts, e.weather);
    if j.deliveryId.Some? { assert OwnsRow(s, e.job, j.deliveryId.value); }
    ProcessShows(s.rows, j.endpoint, j.deliveryId, j.attemptsMade, j.attempts, e.weather);
    LastOfJoin(records, Took(j.attemptsMade, j.attempts, e.weather), Pending);
  }

  lemma {:induction false} RowsShowRecords(endpoints: seq<string>, evs: seq<Event>, i: nat)
    requires Legal(Queue(), Started(endpoints), evs) && i < |endpoints|
    ensures var s := After(Queue(), Started(endpoints), evs);
            Shape(s) && |s.jobs| == |endpoints| && JobShows(s, i, Records(endpoints, evs, i))
  {
    if evs != [] {
      var n := |evs| - 1;
      LastStep(Queue(), Started(endpoints), evs);
      RowsShowRecords(endpoints, evs[..n], i);
      var s, e := After(Queue(), Started(endpoints), evs[..n]), evs[n];
      if e.job == i {
        OwnJobShows(s, e, Records(endpoints, evs[..n], i));
      } else {
        OtherJobShows(s, e, i, Records(endpoints, evs[..n], i));
      }
    }
  }

  /** After any run of all jobs, with failures anywhere: a row that job i inserted reads SUCCESS if
      and only if it is the one the job keeps and the last of the job's records that took effect is
      a success. An accepted post is no guarantee: its record sits inside the try block, and a
      failing write has the catch block record FAILED or PENDING over it. */
  lemma ReadsSuccessIff(endpoints: seq<string>, evs: seq<Event>, i: nat, r: nat)
    requires Legal(Queue(), Started(endpoints), evs) && i < |endpoints|
    ensures ReadsAsRecorded(After(Queue(), Started(endpoints), evs), i, Records(endpoints, evs, i), r)
  {
    RowsShowRecords(endpoints, evs, i);
    ShowsSuccess(After(Queue(), Started(endpoints), evs), i, Records(endpoints, evs, i), r);
  }

  predicate ReadsAsRecorded(s: System, i: nat, records: seq<DeliveryStatus>, r: nat) {
    && i < |s.jobs| && |s.owners| == |s.rows|
    && (r < |s.rows| && s.owners[r] == i ==>
          (s.rows[r].status.Success? <==>
             s.jobs[i].deliveryId == Some(r) && records != [] && records[|records| - 1].Success?))
  }

  lemma ShowsSuccess(s: System, i: nat, records: seq<DeliveryStatus>, r: nat)
    requires Shape(s) && i < |s.jobs| && JobShows(s, i, records)
    ensures ReadsAsRecorded(s, i, records, r)
  {}

  /** A run from the start in which the endpoint accepts every post, and is recorded as FAILED. */
  lemma AcceptedButFailed() returns (evs: seq<Event>)
    ensures Legal(Queue(), Started(["hook"]), evs)
    ensures var s := After(Queue(), Started(["hook"]), evs);
            && s.rows == [Delivery("hook", Failed, None, 2)]
            && |s.jobs| == 1 && s.jobs[0].state.Exhausted?
            && s.jobs[0].answers == [Accepted(200)] + [Accepted(200)] + [Accepted(200)]
  {
    var e := RunJob(0, Weather(Works, Works, Accepted(200), FailsBefore, Works));
    var s0 := Started(["hook"]);
    var s1 := Apply(s0, e);
    var s2 := Apply(s1, e);
    var s3 := Apply(s2, e);
    UnrecordedRun([], "hook", None, 0);
    assert s1.rows == [Delivery("hook", Pending, None, 0)] && s1.jobs[0].deliveryId == Some(0)
           && s1.jobs[0].attemptsMade == 1;
    UnrecordedRun(s1.rows, "hook", Some(0), 1);
    assert s2.rows == [Delivery("hook", Pending, None, 1)] && s2.jobs[0].deliveryId == Some(0)
           && s2.jobs[0].attemptsMade == 2;
    UnrecordedRun(s2.rows, "hook", Some(0), 2);
    One(Queue(), s0, e);
    Extend(Queue(), s0, [e], s1, e);
    Extend(Queue(), s0, [e] + [e], s2, e);
    evs := [e] + [e] + [e];
  }

  lemma UnrecordedRun(rows: seq<Delivery>, endpoint: string, deliveryId: Option<nat>, made: nat)
    requires deliveryId.Some? ==> deliveryId.value < |rows| && rows[deliveryId.value].endpoint == endpoint
    ensures var w := Weather(Works, Works, Accepted(200), FailsBefore, Works);
            var p := Process(rows, endpoint, deliveryId, made, 3, w);
            var id := if deliveryId.Some? then deliveryId.value else |rows|;
            var row := Delivery(endpoint, if made + 1 >= 3 then Failed else Pending, None, made);
            && p.posted && !p.returned && p.deliveryId == Some(id)
            && p.rows == if deliveryId.Some? then rows[id := row] else rows + [row]
  {}

  // ---- When the database and the queue do not fail ----

  predicate AllCalm(evs: seq<Event>) {
    forall i :: 0 <= i < |evs| ==> Calm(evs[i].weather)
  }

  predicate Stops(a: Answer) {
    a.Accepted? || a == Rejected(404)
  }

  /** What the answers so far make of a job: only the last may stop it; it is exhausted when the
      last allowed attempt did not. */
  function Verdict(answers: seq<Answer>, attempts: nat): JobState {
    if answers != [] && Stops(answers[|answers| - 1]) then Done
    else if |answers| < attempts then Queued else Exhausted
  }

  /** The row a job with these answers must have. */
  function RowOf(j: Job): Delivery
    requires j.answers != []
  {
    var last := j.answers[|j.answers| - 1];
    Delivery(j.endpoint,
             if last.Accepted? then Success else if j.state.Queued? then Pending else Failed,
             CodeOf(last), |j.answers| - 1)
  }

  predicate CalmJob(rows: seq<Delivery>, owners: seq<nat>, i: nat, j: Job) {
    && j.attempts == 3 && j.posts == |j.answers| <= j.attempts
    && j.state == Verdict(j.answers, j.attempts)
    && (j.state.Queued? ==> j.attemptsMade == |j.answers|)
    && (forall k :: 0 <= k < |j.answers| - 1 ==> !Stops(j.answers[k]))
    && (j.deliveryId.Some? <==> j.answers != [])
    && (forall r :: 0 <= r < |owners| && owners[r] == i ==> j.deliveryId == Some(r))
    && (j.deliveryId.Some? ==>
          && j.deliveryId.value < |rows| && j.deliveryId.value < |owners|
          && owners[j.deliveryId.value] == i && rows[j.deliveryId.value] == RowOf(j))
  }

  predicate CalmInv(s: System) {
    && |s.owners| == |s.rows|
    && (forall r :: 0 <= r < |s.owners| ==> s.owners[r] < |s.jobs|)
    && forall i :: 0 <= i < |s.jobs| ==> CalmJob(s.rows, s.owners, i, s.jobs[i])
  }

  /** A failure-free run writes the outcome of this attempt into the job's row, inserted first if
      need be, and returns exactly when no retry is wanted. */
  lemma CalmProcess(rows: seq<Delivery>, endpoint: string, deliveryId: Option<nat>, made: nat, attempts: nat,
                    w: Weather)
    requires Calm(w) && (deliveryId.Some? ==> deliveryId.value < |rows| && rows[deliveryId.value].endpoint == endpoint)
    ensures var p := Process(rows, endpoint, deliveryId, made, attempts, w);
            var id := if deliveryId.Some? then deliveryId.value else |rows|;
            var row := Delivery(endpoint,
                                if w.answer.Accepted? then Success
                                else if IsFinal(CodeOf(w.answer), made, attempts) then Failed else Pending,
                                CodeOf(w.answer), made);
            && p.posted && p.returned == Stops(w.answer) && p.deliveryId == Some(id)
            && p.rows == if deliveryId.Some? then rows[id := row] else rows + [row]
  {}

  lemma CalmStep(s: System, e: Event)
    requires CalmInv(s) && Enabled(s, e) && Calm(e.weather)
    ensures CalmInv(Apply(s, e))
  {
    var j := s.jobs[e.job];
    var s' := Apply(s, e);
    CalmProcess(s.rows, j.endpoint, j.deliveryId, j.attemptsMade, j.attempts, e.weather);
    forall i | 0 <= i < |s'.jobs|
      ensures CalmJob(s'.rows, s'.owners, i, s'.jobs[i])
    {
      if i == e.job {
        CalmOwnJob(s, e);
      } else {
        assert s'.jobs[i] == s.jobs[i] && CalmJob(s.rows, s.owners, i, s.jobs[i]);
      }
    }
  }

  lemma CalmOwnJob(s: System, e: Event)
    requires CalmInv(s) && Enabled(s, e) && Calm(e.weather)
    ensures var s' := Apply(s, e); |s'.owners| == |s'.rows| && CalmJob(s'.rows, s'.owners, e.job, s'.jobs[e.job])
  {
    var j := s.jobs[e.job];
    assert CalmJob(s.rows, s.owners, e.job, j);
    CalmProcess(s.rows, j.endpoint, j.deliveryId, j.attemptsMade, j.attempts, e.weather);
  }

  lemma {:induction false} CalmRun(s: System, evs: seq<Event>)
    requires CalmInv(s) && Legal(Queue(), s, evs) && AllCalm(evs)
    ensures CalmInv(After(Queue(), s, evs))
    ensures |After(Queue(), s, evs).jobs| == |s.jobs|
    ensures forall i :: 0 <= i < |s.jobs| ==> After(Queue(), s, evs).jobs[i].endpoint == s.jobs[i].endpoint
    decreases |evs|
  {
    if evs != [] {
      CalmStep(s, evs[0]);
      CalmRun(Apply(s, evs[0]), evs[1..]);
    }
  }

  predicate OnlyRow(owners: seq<nat>, i: nat, r: nat) {
    forall r' :: 0 <= r' < |owners| ==> (owners[r'] == i <==> r' == r)
  }

  /** Without such failures, for every sequence of answers and every interleaving: a job posts
      once per answer and at most three times, it stops at the first acceptance or 404,
      and its one row is PENDING exactly while a retry remains, else SUCCESS or FAILED as the
      last answer says, with that answer's code and attempt number. */
  lemma DeliveryOutcome(endpoints: seq<string>, evs: seq<Event>, i: nat)
    requires Legal(Queue(), Started(endpoints), evs) && AllCalm(evs) && i < |endpoints|
    ensures var s := After(Queue(), Started(endpoints), evs);
            && |s.jobs| == |endpoints| && |s.owners| == |s.rows|
            && var j, n := s.jobs[i], |s.jobs[i].answers|;
               && j.endpoint == endpoints[i] && j.posts == n <= 3
               && (forall k :: 0 <= k < n - 1 ==> !j.answers[k].Accepted? && j.answers[k] != Rejected(404))
               && (n == 0 ==> j.state == Queued && forall r :: 0 <= r < |s.rows| ==> s.owners[r] != i)
               && (n > 0 ==>
                     var last := j.answers[n - 1];
                     var stops := last.Accepted? || last == Rejected(404);
                     var status := if last.Accepted? then Success else if stops || n == 3 then Failed else Pending;
                     && j.state == (if stops then Done else if n < 3 then Queued else Exhausted)
                     && exists r :: 0 <= r < |s.rows| && OnlyRow(s.owners, i, r)
                          && s.rows[r] == Delivery(endpoints[i], status, CodeOf(last), n - 1))
  {
    var s0 := Started(endpoints);
    CalmRun(s0, evs);
    var s := After(Queue(), s0, evs);
    assert s0.jobs[i].endpoint == endpoints[i];
    assert CalmJob(s.rows, s.owners, i, s.jobs[i]);
    if s.jobs[i].answers != [] {
      var r := s.jobs[i].deliveryId.value;
      assert OnlyRow(s.owners, i, r) && s.rows[r] == RowOf(s.jobs[i]);
    }
  }

  // ---- Dispatch and delivery together ----

  predicate DistinctIds(endpoints: seq<Endpoint>) {
    forall i, j :: 0 <= i < j < |endpoints| ==> endpoints[i].id != endpoints[j].id
  }

  predicate Distinct(q: seq<string>) {
    forall i, j :: 0 <= i < j < |q| ==> q[i] != q[j]
  }

  predicate HasSubscriber(endpoints: seq<Endpoint>, org: string, event: string, id: string) {
    exists k :: 0 <= k < |endpoints| && endpoints[k].id == id && Subscribed(endpoints[k], org, event)
  }

  lemma SubscriberExtends(endpoints: seq<Endpoint>, org: string, event: string, id: string)
    requires endpoints != []
    ensures var n := |endpoints| - 1;
            HasSubscriber(endpoints, org, event, id) <==>
              || HasSubscriber(endpoints[..n], org, event, id)
              || (endpoints[n].id == id && Subscribed(endpoints[n], org, event))
  {
    var n := |endpoints| - 1;
    if HasSubscriber(endpoints, org, event, id) {
      var k :| 0 <= k < |endpoints| && endpoints[k].id == id && Subscribed(endpoints[k], org, event);
      if k < n { assert endpoints[..n][k].id == id && Subscribed(endpoints[..n][k], org, event); }
    }
    if HasSubscriber(endpoints[..n], org, event, id) {
      var k :| 0 <= k < n && endpoints[..n][k].id == id && Subscribed(endpoints[..n][k], org, event);
      assert endpoints[k].id == id;
    }
  }

  lemma {:induction false} RecipientsSubscribe(endpoints: seq<Endpoint>, org: string, event: string)
    requires DistinctIds(endpoints)
    ensures var q := Recipients(endpoints, org, event);
            Distinct(q) && forall id :: id in q <==> HasSubscriber(endpoints, org, event, id)
  {
    if endpoints != [] {
      var n := |endpoints| - 1;
      RecipientsSubscribe(endpoints[..n], org, event);
      forall id: string
        ensures id in Recipients(endpoints, org, event) <==> HasSubscriber(endpoints, org, event, id)
      {
        SubscriberExtends(endpoints, org, event, id);
      }
      forall k | 0 <= k < n
        ensures endpoints[..n][k].id != endpoints[n].id
      {}
      assert !HasSubscriber(endpoints[..n], org, event, endpoints[n].id);
    }
  }

  /** Dispatch reaches every active endpoint of the organization that lists the event, once, and
      no other. */
  lemma RecipientsExact(endpoints: seq<Endpoint>, org: string, event: string)
    requires DistinctIds(endpoints)
    ensures var q := Recipients(endpoints, org, event);
            && (forall k :: 0 <= k < |endpoints| ==>
                  (endpoints[k].id in q <==>
                     endpoints[k].org == org && endpoints[k].isActive && event in endpoints[k].events))
            && (forall id :: id in q ==> exists k :: 0 <= k < |endpoints| && endpoints[k].id == id)
            && (forall i, j :: 0 <= i < j < |q| ==> q[i] != q[j])
  {
    RecipientsSubscribe(endpoints, org, event);
    var q := Recipients(endpoints, org, event);
    assert Distinct(q);
    forall k | 0 <= k < |endpoints|
      ensures endpoints[k].id in q <==> Subscribed(endpoints[k], org, event)
    {
      if HasSubscriber(endpoints, org, event, endpoints[k].id) {
        var k' :| 0 <= k' < |endpoints| && endpoints[k'].id == endpoints[k].id && Subscribed(endpoints[k'], org, event);
        assert k' == k;
      }
    }
    forall id | id in q
      ensures exists k :: 0 <= k < |endpoints| && endpoints[k].id == id
    {
      assert HasSubscriber(endpoints, org, event, id);
    }
  }

  /** A calm run, finished: each job's row, and each row's job. */
  lemma Finished(q: seq<string>, evs: seq<Event>)
    requires Legal(Queue(), Started(q), evs) && AllCalm(evs)
    requires forall j :: j in After(Queue(), Started(q), evs).jobs ==> !j.state.Queued?
    ensures var s := After(Queue(), Started(q), evs);
            && |s.jobs| == |q| && |s.owners| == |s.rows|
            && (forall i :: 0 <= i < |q| ==> FinishedJob(s.rows, s.jobs[i], q[i]))
            && (forall r :: 0 <= r < |s.rows| ==> s.owners[r] < |q| && s.jobs[s.owners[r]].deliveryId == Some(r))
  {
    var s0 := Started(q);
    CalmRun(s0, evs);
    var s := After(Queue(), s0, evs);
    forall i | 0 <= i < |q|
      ensures FinishedJob(s.rows, s.jobs[i], q[i])
    {
      assert s0.jobs[i].endpoint == q[i] && s.jobs[i] in s.jobs;
      assert CalmJob(s.rows, s.owners, i, s.jobs[i]);
    }
    forall r | 0 <= r < |s.rows|
      ensures s.jobs[s.owners[r]].deliveryId == Some(r)
    {
      assert CalmJob(s.rows, s.owners, s.owners[r], s.jobs[s.owners[r]]);
    }
  }

  predicate FinishedJob(rows: seq<Delivery>, j: Job, endpoint: string) {
    && j.deliveryId.Some? && j.deliveryId.value < |rows|
    && rows[j.deliveryId.value].endpoint == endpoint && !rows[j.deliveryId.value].status.Pending?
  }

  /** Every endpoint of q has one row, and every row is some endpoint's. */
  predicate OneToOne(q: seq<string>, rows: seq<Delivery>) {
    && (forall r :: 0 <= r < |rows| ==> rows[r].endpoint in q && !rows[r].status.Pending?)
    && (forall id :: id in q ==> exists r :: 0 <= r < |rows| && rows[r].endpoint == id)
    && (forall r, r' :: 0 <= r < r' < |rows| ==> rows[r].endpoint != rows[r'].endpoint)
  }

  lemma RowsOneToOne(q: seq<string>, rows: seq<Delivery>, owners: seq<nat>, jobs: seq<Job>)
    requires Distinct(q) && |jobs| == |q| && |owners| == |rows|
    requires forall i :: 0 <= i < |q| ==> FinishedJob(rows, jobs[i], q[i])
    requires forall r :: 0 <= r < |rows| ==> owners[r] < |q| && jobs[owners[r]].deliveryId == Some(r)
    ensures OneToOne(q, rows)
  {
    forall r | 0 <= r < |rows|
      ensures rows[r].endpoint == q[owners[r]] && !rows[r].status.Pending?
    {
      assert FinishedJob(rows, jobs[owners[r]], q[owners[r]]);
    }
    forall id | id in q
      ensures exists r :: 0 <= r < |rows| && rows[r].endpoint == id
    {
      var i :| 0 <= i < |q| && q[i] == id;
      assert FinishedJob(rows, jobs[i], q[i]);
    }
  }

  lemma FinishedRows(q: seq<string>, evs: seq<Event>)
    requires Distinct(q) && Legal(Queue(), Started(q), evs) && AllCalm(evs)
    requires forall j :: j in After(Queue(), Started(q), evs).jobs ==> !j.state.Queued?
    ensures OneToOne(q, After(Queue(), Started(q), evs).rows)
  {
    Finished(q, evs);
    var s := After(Queue(), Started(q), evs);
    RowsOneToOne(q, s.rows, s.owners, s.jobs);
  }

  /** Once every job of a dispatch has finished, each active endpoint subscribed to the event has
      exactly one delivery row, in a final status, and no other endpoint has any. */
  lemma OneRowPerSubscriber(endpoints: seq<Endpoint>, org: string, event: string, evs: seq<Event>)
    requires DistinctIds(endpoints)
    requires Legal(Queue(), Started(Recipients(endpoints, org, event)), evs) && AllCalm(evs)
    requires forall j :: j in After(Queue(), Started(Recipients(endpoints, org, event)), evs).jobs ==> !j.state.Queued?
    ensures var rows := After(Queue(), Started(Recipients(endpoints, org, event)), evs).rows;
            && (forall k :: 0 <= k < |endpoints| ==>
                  (endpoints[k].org == org && endpoints[k].isActive && event in endpoints[k].events <==>
                     exists r :: 0 <= r < |rows| && rows[r].endpoint == endpoints[k].id))
            && (forall r, r' :: 0 <= r < r' < |rows| ==> rows[r].endpoint != rows[r'].endpoint)
            && (forall r :: 0 <= r < |rows| ==> !rows[r].status.Pending?)
  {
    var q := Recipients(endpoints, org, event);
    RecipientsExact(endpoints, org, event);
    assert Distinct(q);
    FinishedRows(q, evs);
    var rows := After(Queue(), Started(q), evs).rows;
    forall k | 0 <= k < |endpoints|
      ensures endpoints[k].id in q <==> exists r :: 0 <= r < |rows| && rows[r].endpoint == endpoints[k].id
    {
      assert OneToOne(q, rows);
    }
  }
}
