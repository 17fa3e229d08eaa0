/** The usage tracker under concurrency: every await of `intercept`, `logUsage` and `getPlanLimit`
    is a step, and steps of requests from any organizations interleave freely over one Redis. */
module UsageRace {
  import opened Wrappers
  import opened Ttl
  import opened Keys
  import opened RedisServer
  import opened Usage
  import opened Runs

  /** Where an admitted request stands: its handler runs; its INCR returned; the cached limits
      were not there; the organization's row was read; its limit is known. */
  datatype Task =
    | Handling(org: OrgId)
    | Counting(org: OrgId, count: int)
    | Missed(org: OrgId, count: int)
    | Loaded(org: OrgId, count: int, plan: PlanLimits)
    | Limited(org: OrgId, count: int, limit: int)

  type Tasks = map<nat, Task>

  datatype State = State(store: UsageStore, tasks: Tasks)

  datatype Event =
    | Arrive(id: nat, now: Instant, org: OrgId)   // flag read; a flagged request is refused at once
    | HandlerFails(id: nat, now: Instant)
    | Increment(id: nat, now: Instant)            // the handler succeeded; INCR
    | ReadCache(id: nat, now: Instant)
    | ReadRow(id: nat, now: Instant)
    | CachePlan(id: nat, now: Instant)
    | Finish(id: nat, now: Instant)               // the flag is set if the limit was reached

  /** All steps happen between `start` and `until`, in one month, and no organization has more
      than `cap` requests in flight. */
  datatype Setting = Setting(w: World, start: Instant, until: Instant, cap: nat) {
    predicate At(now: Instant) {
      start <= now <= until
    }

    function SlotsAt(org: OrgId, now: Instant): Slots {
      SlotsOf(org, Period(now, w.offset))
    }
  }

  function TasksOf(tasks: Tasks, org: OrgId): set<nat> {
    set id | id in tasks && tasks[id].org == org
  }

  function Uncounted(tasks: Tasks, org: OrgId): set<nat> {
    set id | id in tasks && tasks[id] == Handling(org)
  }

  /** Requests past their INCR, and not finished, whose own count is at or over the limit. */
  function Overdue(tasks: Tasks, org: OrgId, limit: int): set<nat> {
    set id | id in tasks && tasks[id].org == org && !tasks[id].Handling? && LimitReached(limit, tasks[id].count)
  }

  predicate Expects(t: Task, e: Event) {
    match e
    case Arrive(_, _, _) => false
    case HandlerFails(_, _) => t.Handling?
    case Increment(_, _) => t.Handling?
    case ReadCache(_, _) => t.Counting?
    case ReadRow(_, _) => t.Missed?
    case CachePlan(_, _) => t.Loaded?
    case Finish(_, _) => t.Limited?
  }

  predicate Enabled(x: Setting, s: State, e: Event) {
    && x.At(e.now)
    && if e.Arrive? then e.id !in s.tasks && ColonFree(e.org) && |TasksOf(s.tasks, e.org)| < x.cap
       else e.id in s.tasks && Expects(s.tasks[e.id], e)
  }

  /** What a step of task t writes, over its organization's keys. */
  function Wrote(m: UsageStore, t: Task, e: Event, k: Slots, ttlExpiration: nat, ttl: int): UsageStore
    requires Expects(t, e)
  {
    match e
    case Increment(_, now) =>
      var c := IncrCell(m, k.counter, now);
      if c.Ok? then m[k.counter := c.value] else m
    case CachePlan(_, now) => Put(m, k.plan, Json(t.plan), ttlExpiration, now)
    case Finish(_, now) => if LimitReached(t.limit, t.count) then RaiseAt(m, k.flag, ttl, now).1 else m
    case _ => m
  }

  /** What becomes of the task, if it goes on. */
  function Next(m: UsageStore, t: Task, e: Event, k: Slots, row: Option<PlanLimits>): Option<Task>
    requires Expects(t, e)
  {
    match e
    case Increment(_, now) =>
      var c := IncrCell(m, k.counter, now);
      if c.Ok? then Some(Counting(t.org, c.value.value.n)) else None
    case ReadCache(_, now) =>
      var cached := Get(m, k.plan, now);
      Some(if cached.Some? && cached.value.Json? then Limited(t.org, t.count, cached.value.doc.apiCallsPerMonth)
           else Missed(t.org, t.count))
    case ReadRow(_, _) => if row.Some? then Some(Loaded(t.org, t.count, row.value)) else None
    case CachePlan(_, _) => Some(Limited(t.org, t.count, t.plan.apiCallsPerMonth))
    case _ => None
  }

  function Moved(tasks: Tasks, id: nat, next: Option<Task>): Tasks {
    if next.Some? then tasks[id := next.value] else tasks - {id}
  }

  function Apply(x: Setting, s: State, e: Event): State {
    if !Enabled(x, s, e) then s
    else if e.Arrive? then
      if Flagged(s.store, e.org, e.now) then s else s.(tasks := s.tasks[e.id := Handling(e.org)])
    else
      var t := s.tasks[e.id];
      var k := x.SlotsAt(t.org, e.now);
      State(Wrote(s.store, t, e, k, x.w.ttlExpiration, TtlAt(x.w, e.now)),
            Moved(s.tasks, e.id, Next(s.store, t, e, k, RowOf(x.w, t.org))))
  }

  function Traffic(x: Setting): Machine<State, Event> {
    Machine((s, e) => Enabled(x, s, e), (s, e) => Apply(x, s, e))
  }

  // ---- How one organization's tasks add up ----

  predicate Knows(t: Task, row: PlanLimits) {
    (t.Loaded? ==> t.plan == row) && (t.Limited? ==> t.limit == row.apiCallsPerMonth)
  }

  /** While no flag is up, every count from the ceiling on belongs to a request still in flight. */
  predicate TaskInv(cap: nat, tasks: Tasks, org: OrgId, row: PlanLimits, top: int, n: nat, flag: bool) {
    && (forall id :: id in tasks && tasks[id].org == org ==> Knows(tasks[id], row))
    && |TasksOf(tasks, org)| <= cap
    && (!flag ==> n <= top - 1 + |Overdue(tasks, org, row.apiCallsPerMonth)|)
    && n + |Uncounted(tasks, org)| <= top + cap - 1
  }

  lemma SubsetCount(a: set<nat>, b: set<nat>)
    requires a <= b
    ensures |a| <= |b|
  {
    assert b == a + (b - a);
    assert |b| == |a| + |b - a|;
  }

  lemma PhasesDisjoint(tasks: Tasks, org: OrgId, limit: int)
    ensures |Uncounted(tasks, org)| + |Overdue(tasks, org, limit)| <= |TasksOf(tasks, org)|
  {
    var u, o := Uncounted(tasks, org), Overdue(tasks, org, limit);
    SubsetCount(u + o, TasksOf(tasks, org));
    assert |u + o| == |u| + |o|;
  }

  lemma ArriveTaskSet(tasks: Tasks, org: OrgId, id: nat)
    requires id !in tasks
    ensures |TasksOf(tasks[id := Handling(org)], org)| == |TasksOf(tasks, org)| + 1
  {
    assert TasksOf(tasks[id := Handling(org)], org) == TasksOf(tasks, org) + {id};
  }

  lemma ArriveUncounted(tasks: Tasks, org: OrgId, id: nat)
    requires id !in tasks
    ensures |Uncounted(tasks[id := Handling(org)], org)| == |Uncounted(tasks, org)| + 1
  {
    assert Uncounted(tasks[id := Handling(org)], org) == Uncounted(tasks, org) + {id};
  }

  lemma ArriveOverdue(tasks: Tasks, org: OrgId, limit: int, id: nat)
    requires id !in tasks
    ensures Overdue(tasks[id := Handling(org)], org, limit) == Overdue(tasks, org, limit)
  {}

  lemma ArriveTasks(cap: nat, tasks: Tasks, org: OrgId, row: PlanLimits, top: int, n: nat, id: nat)
    requires TaskInv(cap, tasks, org, row, top, n, false) && id !in tasks && |TasksOf(tasks, org)| < cap
    ensures TaskInv(cap, tasks[id := Handling(org)], org, row, top, n, false)
  {
    ArriveTaskSet(tasks, org, id);
    ArriveUncounted(tasks, org, id);
    ArriveOverdue(tasks, org, row.apiCallsPerMonth, id);
    PhasesDisjoint(tasks, org, row.apiCallsPerMonth);
  }

  lemma LeaveTasks(cap: nat, tasks: Tasks, org: OrgId, row: PlanLimits, top: int, n: nat, flag: bool, id: nat)
    requires TaskInv(cap, tasks, org, row, top, n, flag) && id in tasks
    requires id !in Overdue(tasks, org, row.apiCallsPerMonth) || flag
    ensures TaskInv(cap, tasks - {id}, org, row, top, n, flag)
  {
    var limit := row.apiCallsPerMonth;
    SubsetCount(TasksOf(tasks - {id}, org), TasksOf(tasks, org));
    SubsetCount(Uncounted(tasks - {id}, org), Uncounted(tasks, org));
    if id !in Overdue(tasks, org, limit) {
      assert Overdue(tasks - {id}, org, limit) == Overdue(tasks, org, limit);
    }
  }

  lemma CountedOverdue(tasks: Tasks, org: OrgId, limit: int, n: nat, id: nat)
    requires id in tasks && tasks[id] == Handling(org)
    ensures |Overdue(tasks[id := Counting(org, n)], org, limit)|
              == |Overdue(tasks, org, limit)| + if LimitReached(limit, n) then 1 else 0
  {
    assert Overdue(tasks[id := Counting(org, n)], org, limit)
        == Overdue(tasks, org, limit) + if LimitReached(limit, n) then {id} else {};
  }

  lemma CountedSets(tasks: Tasks, org: OrgId, n: nat, id: nat)
    requires id in tasks && tasks[id] == Handling(org)
    ensures TasksOf(tasks[id := Counting(org, n)], org) == TasksOf(tasks, org)
    ensures |Uncounted(tasks, org)| == |Uncounted(tasks[id := Counting(org, n)], org)| + 1
  {
    assert Uncounted(tasks, org) == Uncounted(tasks[id := Counting(org, n)], org) + {id};
  }

  lemma CountTasks(cap: nat, tasks: Tasks, org: OrgId, row: PlanLimits, top: int, n: nat, flag: bool, id: nat)
    requires TaskInv(cap, tasks, org, row, top, n, flag) && id in tasks && tasks[id] == Handling(org)
    requires row.apiCallsPerMonth != -1 && top >= row.apiCallsPerMonth
    ensures TaskInv(cap, tasks[id := Counting(org, n + 1)], org, row, top, n + 1, flag)
  {
    CountedSets(tasks, org, n + 1, id);
    CountedOverdue(tasks, org, row.apiCallsPerMonth, n + 1, id);
  }

  lemma AdvanceTasks(cap: nat, tasks: Tasks, org: OrgId, row: PlanLimits, top: int, n: nat, flag: bool, id: nat,
                     t: Task)
    requires TaskInv(cap, tasks, org, row, top, n, flag) && id in tasks && tasks[id].org == org == t.org
    requires !tasks[id].Handling? && !t.Handling? && t.count == tasks[id].count && Knows(t, row)
    ensures TaskInv(cap, tasks[id := t], org, row, top, n, flag)
  {
    assert TasksOf(tasks[id := t], org) == TasksOf(tasks, org);
    assert Uncounted(tasks[id := t], org) == Uncounted(tasks, org);
    assert Overdue(tasks[id := t], org, row.apiCallsPerMonth) == Overdue(tasks, org, row.apiCallsPerMonth);
  }

  lemma OtherTasks(cap: nat, tasks: Tasks, id: nat, next: Option<Task>, org: OrgId, row: PlanLimits, top: int, n: nat,
                   flag: bool)
    requires TaskInv(cap, tasks, org, row, top, n, flag)
    requires (id in tasks ==> tasks[id].org != org) && (next.Some? ==> next.value.org != org)
    ensures TaskInv(cap, Moved(tasks, id, next), org, row, top, n, flag)
  {
    var after := Moved(tasks, id, next);
    assert TasksOf(after, org) == TasksOf(tasks, org);
    assert Uncounted(after, org) == Uncounted(tasks, org);
    assert Overdue(after, org, row.apiCallsPerMonth) == Overdue(tasks, org, row.apiCallsPerMonth);
  }

  // ---- What one organization's keys hold ----

  predicate StoreInv(m: UsageStore, k: Slots, row: PlanLimits, last: Instant, n: nat) {
    PlanFits(m, k, row) && CountAt(m, k, n) && (k.flag in m ==> FlagLasts(m, k, last))
  }

  predicate Disjoint(k: Slots, j: Slots) {
    && k.counter != j.counter && k.counter != j.flag && k.counter != j.plan
    && k.flag != j.counter && k.flag != j.flag && k.flag != j.plan
    && k.plan != j.counter && k.plan != j.flag && k.plan != j.plan
  }

  lemma OrganizationsDisjoint(x: Setting, a: OrgId, s: Instant, b: OrgId, t: Instant)
    requires ColonFree(a) && ColonFree(b) && a != b && Period(s, x.w.offset) == Period(t, x.w.offset)
    ensures Disjoint(x.SlotsAt(a, s), x.SlotsAt(b, t))
  {
    PeriodColonFree(s, x.w.offset);
    KeysDistinct(a, b, Period(s, x.w.offset));
    KeysDistinct(b, a, Period(s, x.w.offset));
  }

  lemma WroteElsewhere(m: UsageStore, t: Task, e: Event, j: Slots, ttlExpiration: nat, ttl: int,
                       k: Slots, row: PlanLimits, last: Instant, n: nat)
    requires Expects(t, e) && Disjoint(k, j) && StoreInv(m, k, row, last, n)
    ensures var m' := Wrote(m, t, e, j, ttlExpiration, ttl);
            StoreInv(m', k, row, last, n) && (k.flag in m' <==> k.flag in m)
  {}

  lemma WroteIncrement(m: UsageStore, t: Task, e: Event, k: Slots, ttlExpiration: nat, ttl: int, row: PlanLimits,
                       last: Instant, n: nat)
    requires Expects(t, e) && e.Increment? && k.Apart() && StoreInv(m, k, row, last, n)
    ensures var m' := Wrote(m, t, e, k, ttlExpiration, ttl);
            StoreInv(m', k, row, last, n + 1) && (k.flag in m' <==> k.flag in m)
    ensures IncrCell(m, k.counter, e.now) == Ok(Cell(Num(n + 1), None))
  {}

  lemma WrotePlan(m: UsageStore, t: Task, e: Event, k: Slots, ttlExpiration: nat, ttl: int, row: PlanLimits,
                  last: Instant, n: nat)
    requires Expects(t, e) && !e.Increment? && !e.Finish? && k.Apart() && StoreInv(m, k, row, last, n) && Knows(t, row)
    ensures var m' := Wrote(m, t, e, k, ttlExpiration, ttl);
            StoreInv(m', k, row, last, n) && (k.flag in m' <==> k.flag in m)
  {}

  lemma WroteFlag(m: UsageStore, t: Task, e: Event, k: Slots, ttlExpiration: nat, ttl: int, row: PlanLimits,
                  last: Instant, n: nat)
    requires Expects(t, e) && e.Finish? && k.Apart() && StoreInv(m, k, row, last, n)
    requires ttl >= 1 && e.now + 1000 * ttl > last
    ensures var m' := Wrote(m, t, e, k, ttlExpiration, ttl);
            StoreInv(m', k, row, last, n) && (k.flag in m' <==> k.flag in m || LimitReached(t.limit, t.count))
  {}

  // ---- The invariant, step by step ----

  /** The organization under observation: its keys and plan, the window's end, and the ceiling. */
  datatype Subject = Subject(org: OrgId, k: Slots, row: PlanLimits, last: Instant, top: int)

  predicate Observes(x: Setting, o: Subject, n0: nat) {
    && ColonFree(o.org) && Belong(x.w, o.org, x.start, o.k, o.row) && o.row.apiCallsPerMonth != -1
    && x.until <= o.last == WindowEnd(x.w, x.start) && o.top == Ceiling(o.row.apiCallsPerMonth, n0)
  }

  predicate Inv(x: Setting, o: Subject, s: State, n: nat) {
    && (forall id :: id in s.tasks ==> ColonFree(s.tasks[id].org))
    && StoreInv(s.store, o.k, o.row, o.last, n)
    && TaskInv(x.cap, s.tasks, o.org, o.row, o.top, n, o.k.flag in s.store)
  }

  /** Some count n fits the state. */
  ghost predicate Fits(x: Setting, o: Subject, s: State) {
    exists n: nat :: Inv(x, o, s, n)
  }

  lemma PeriodKept(x: Setting, o: Subject, n0: nat, now: Instant)
    requires Observes(x, o, n0) && x.At(now)
    ensures Period(now, x.w.offset) == Period(x.start, x.w.offset) && o.k == x.SlotsAt(o.org, now) && o.k.Apart()
    ensures TtlAt(x.w, now) >= 1 && now + 1000 * TtlAt(x.w, now) > o.last
  {
    MonthFacts(x.w, x.start, now);
    SlotsApart(x.w, o.org, x.start, o.k, o.row);
  }

  lemma OthersTasksColonFree(tasks: Tasks, id: nat, next: Option<Task>)
    requires forall i :: i in tasks ==> ColonFree(tasks[i].org)
    requires next.Some? ==> ColonFree(next.value.org)
    ensures forall i :: i in Moved(tasks, id, next) ==> ColonFree(Moved(tasks, id, next)[i].org)
  {}

  lemma SameOrg(m: UsageStore, t: Task, e: Event, k: Slots, row: Option<PlanLimits>)
    requires Expects(t, e)
    ensures Next(m, t, e, k, row).Some? ==> Next(m, t, e, k, row).value.org == t.org
  {}

  lemma ArriveKeeps(x: Setting, o: Subject, n0: nat, s: State, e: Event, n: nat)
    requires Observes(x, o, n0) && Inv(x, o, s, n) && Enabled(x, s, e) && e.Arrive?
    ensures Inv(x, o, Apply(x, s, e), n)
  {
    if !Flagged(s.store, e.org, e.now) {
      OthersTasksColonFree(s.tasks, e.id, Some(Handling(e.org)));
      if e.org != o.org {
        OtherTasks(x.cap, s.tasks, e.id, Some(Handling(e.org)), o.org, o.row, o.top, n, o.k.flag in s.store);
      } else {
        assert o.k.flag !in s.store;
        ArriveTasks(x.cap, s.tasks, o.org, o.row, o.top, n, e.id);
      }
    }
  }

  lemma OtherKeeps(x: Setting, o: Subject, n0: nat, s: State, e: Event, n: nat)
    requires Observes(x, o, n0) && Inv(x, o, s, n) && Enabled(x, s, e) && !e.Arrive? && s.tasks[e.id].org != o.org
    ensures Inv(x, o, Apply(x, s, e), n)
  {
    var t := s.tasks[e.id];
    var j := x.SlotsAt(t.org, e.now);
    var next := Next(s.store, t, e, j, RowOf(x.w, t.org));
    PeriodKept(x, o, n0, e.now);
    OrganizationsDisjoint(x, o.org, x.start, t.org, e.now);
    WroteElsewhere(s.store, t, e, j, x.w.ttlExpiration, TtlAt(x.w, e.now), o.k, o.row, o.last, n);
    SameOrg(s.store, t, e, j, RowOf(x.w, t.org));
    OthersTasksColonFree(s.tasks, e.id, next);
    OtherTasks(x.cap, s.tasks, e.id, next, o.org, o.row, o.top, n, o.k.flag in s.store);
  }

  /** What a step of the observed organization's own task does to its store and tasks. */
  lemma OwnStep(m: UsageStore, tasks: Tasks, e: Event, o: Subject, cap: nat, ttlExpiration: nat, ttl: int, n: nat)
    returns (n': nat)
    requires !e.Arrive? && e.id in tasks && Expects(tasks[e.id], e) && tasks[e.id].org == o.org
    requires o.k.Apart() && StoreInv(m, o.k, o.row, o.last, n)
             && TaskInv(cap, tasks, o.org, o.row, o.top, n, o.k.flag in m)
    requires o.row.apiCallsPerMonth != -1 && o.top >= o.row.apiCallsPerMonth
    requires ttl >= 1 && e.now + 1000 * ttl > o.last
    ensures var m' := Wrote(m, tasks[e.id], e, o.k, ttlExpiration, ttl);
            && StoreInv(m', o.k, o.row, o.last, n')
            && TaskInv(cap, Moved(tasks, e.id, Next(m, tasks[e.id], e, o.k, Some(o.row))), o.org, o.row, o.top, n',
                       o.k.flag in m')
  {
    var t := tasks[e.id];
    n' := n;
    if e.Increment? {
      WroteIncrement(m, t, e, o.k, ttlExpiration, ttl, o.row, o.last, n);
      CountTasks(cap, tasks, o.org, o.row, o.top, n, o.k.flag in m, e.id);
      n' := n + 1;
    } else if e.Finish? {
      WroteFlag(m, t, e, o.k, ttlExpiration, ttl, o.row, o.last, n);
      FinishTasks(cap, tasks, o.org, o.row, o.top, n, o.k.flag in m, e.id);
    } else {
      WrotePlan(m, t, e, o.k, ttlExpiration, ttl, o.row, o.last, n);
      PlanTasks(m, tasks, e, o, cap, n);
    }
  }

  lemma FinishTasks(cap: nat, tasks: Tasks, org: OrgId, row: PlanLimits, top: int, n: nat, flag: bool, id: nat)
    requires TaskInv(cap, tasks, org, row, top, n, flag) && id in tasks && tasks[id].Limited? && tasks[id].org == org
    ensures TaskInv(cap, tasks - {id}, org, row, top, n, flag || LimitReached(tasks[id].limit, tasks[id].count))
  {
    var reached := LimitReached(tasks[id].limit, tasks[id].count);
    assert TaskInv(cap, tasks, org, row, top, n, flag || reached);
    LeaveTasks(cap, tasks, org, row, top, n, flag || reached, id);
  }

  lemma PlanTasks(m: UsageStore, tasks: Tasks, e: Event, o: Subject, cap: nat, n: nat)
    requires !e.Arrive? && !e.Increment? && !e.Finish? && e.id in tasks && Expects(tasks[e.id], e)
             && tasks[e.id].org == o.org
    requires PlanFits(m, o.k, o.row) && TaskInv(cap, tasks, o.org, o.row, o.top, n, o.k.flag in m)
    ensures TaskInv(cap, Moved(tasks, e.id, Next(m, tasks[e.id], e, o.k, Some(o.row))), o.org, o.row, o.top, n,
                    o.k.flag in m)
  {
    var next := Next(m, tasks[e.id], e, o.k, Some(o.row));
    if e.HandlerFails? {
      LeaveTasks(cap, tasks, o.org, o.row, o.top, n, o.k.flag in m, e.id);
    } else {
      assert Knows(tasks[e.id], o.row);
      AdvanceTasks(cap, tasks, o.org, o.row, o.top, n, o.k.flag in m, e.id, next.value);
    }
  }

  lemma OwnKeeps(x: Setting, o: Subject, n0: nat, s: State, e: Event, n: nat) returns (n': nat)
    requires Observes(x, o, n0) && Inv(x, o, s, n) && Enabled(x, s, e) && !e.Arrive? && s.tasks[e.id].org == o.org
    ensures Inv(x, o, Apply(x, s, e), n')
  {
    PeriodKept(x, o, n0, e.now);
    n' := OwnStep(s.store, s.tasks, e, o, x.cap, x.w.ttlExpiration, TtlAt(x.w, e.now), n);
    SameOrg(s.store, s.tasks[e.id], e, o.k, Some(o.row));
    OthersTasksColonFree(s.tasks, e.id, Next(s.store, s.tasks[e.id], e, o.k, Some(o.row)));
  }

  /** Each step of any request, of any organization, keeps the observed one's invariant. */
  lemma StepKeeps(x: Setting, o: Subject, n0: nat, s: State, e: Event)
    requires Observes(x, o, n0) && Fits(x, o, s) && Enabled(x, s, e)
    ensures Fits(x, o, Apply(x, s, e))
  {
    var n: nat :| Inv(x, o, s, n);
    if e.Arrive? {
      ArriveKeeps(x, o, n0, s, e, n);
    } else if s.tasks[e.id].org != o.org {
      OtherKeeps(x, o, n0, s, e, n);
    } else {
      var n' := OwnKeeps(x, o, n0, s, e, n);
    }
  }

  function Counter(m: UsageStore, k: Slots): int {
    if k.counter in m && m[k.counter].value.Num? then m[k.counter].value.n else 0
  }

  /** What has been counted, and what is admitted but not yet counted. */
  function Admitted(s: State, o: Subject): int {
    Counter(s.store, o.k) + |Uncounted(s.tasks, o.org)|
  }

  lemma FitsBound(x: Setting, o: Subject, s: State)
    requires Fits(x, o, s)
    ensures Admitted(s, o) <= o.top + x.cap - 1
  {
    var n: nat :| Inv(x, o, s, n);
    assert Counter(s.store, o.k) == n;
  }

  lemma StartFits(x: Setting, o: Subject, n0: nat, m: UsageStore)
    requires x.cap >= 1 && Observes(x, o, n0) && StoreInv(m, o.k, o.row, o.last, n0)
    ensures Fits(x, o, State(m, map[]))
  {
    assert TasksOf(map[], o.org) == {} && Uncounted(map[], o.org) == {};
    assert Inv(x, o, State(m, map[]), n0);
  }

  /** Under every interleaving up to 23:59:58 of the month's last day, with at most `cap` requests
      of an organization in flight and n0 counted at the start: counted plus admitted but not yet
      counted never exceed max(limit, n0 + 1) + cap - 1. */
  lemma AdmissionBound(x: Setting, o: Subject, n0: nat, m: UsageStore, evs: seq<Event>)
    requires x.cap >= 1 && Observes(x, o, n0) && StoreInv(m, o.k, o.row, o.last, n0)
    requires Legal(Traffic(x), State(m, map[]), evs)
    ensures Admitted(After(Traffic(x), State(m, map[]), evs), o) <= o.top + x.cap - 1
  {
    StartFits(x, o, n0, m);
    forall t, e | Fits(x, o, t) && Enabled(x, t, e)
      ensures Fits(x, o, Apply(x, t, e))
    {
      StepKeeps(x, o, n0, t, e);
    }
    Invariant(Traffic(x), t => Fits(x, o, t), State(m, map[]), evs);
    FitsBound(x, o, After(Traffic(x), State(m, map[]), evs));
  }

  // ---- Uninterrupted, the steps are the interceptor's own ----

  function Alone(t: Option<Task>): Tasks {
    if t.Some? then map[0 := t.value] else map[]
  }

  lemma AloneMoves(x: Setting, m: UsageStore, t: Task, e: Event, k: Slots, ttl: int)
    requires e.id == 0 && Expects(t, e) && x.At(e.now) && k == x.SlotsAt(t.org, e.now) && ttl == TtlAt(x.w, e.now)
    ensures var s := State(m, Alone(Some(t)));
            && Enabled(x, s, e)
            && Apply(x, s, e) == State(Wrote(m, t, e, k, x.w.ttlExpiration, ttl),
                                       Alone(Next(m, t, e, k, RowOf(x.w, t.org))))
  {
    assert map[0 := t] - {0} == map[];
    var next := Next(m, t, e, k, RowOf(x.w, t.org));
    if next.Some? { assert map[0 := t][0 := next.value] == map[0 := next.value]; }
  }

  lemma AloneArrives(x: Setting, m: UsageStore, org: OrgId, now: Instant)
    requires x.cap >= 1 && ColonFree(org) && x.At(now) && !Flagged(m, org, now)
    ensures Leads(Traffic(x), State(m, map[]), [Arrive(0, now, org)], State(m, Alone(Some(Handling(org)))))
  {
    var s, e := State(m, map[]), Arrive(0, now, org);
    assert TasksOf(map[], org) == {};
    assert Apply(x, s, e) == State(m, Alone(Some(Handling(org))));
    One(Traffic(x), s, e);
  }

  lemma AloneSteps(x: Setting, m: UsageStore, t: Task, e: Event, k: Slots, ttl: int, m': UsageStore, t': Option<Task>)
    requires e.id == 0 && Expects(t, e) && x.At(e.now) && k == x.SlotsAt(t.org, e.now) && ttl == TtlAt(x.w, e.now)
    requires m' == Wrote(m, t, e, k, x.w.ttlExpiration, ttl) && t' == Next(m, t, e, k, RowOf(x.w, t.org))
    ensures Leads(Traffic(x), State(m, Alone(Some(t))), [e], State(m', Alone(t')))
  {
    AloneMoves(x, m, t, e, k, ttl);
    One(Traffic(x), State(m, Alone(Some(t))), e);
  }

  /** Reading the plan: one step if it is cached, else three. */
  lemma AloneLooks(x: Setting, m: UsageStore, org: OrgId, count: int, k: Slots, row: PlanLimits, now: Instant)
    returns (evs: seq<Event>)
    requires x.At(now) && k == x.SlotsAt(org, now) && RowOf(x.w, org) == Some(row)
    ensures var (plan, m') := LookupAt(m, k.plan, Some(row), x.w.ttlExpiration, now);
            && plan.Ok?
            && Leads(Traffic(x), State(m, Alone(Some(Counting(org, count)))), evs,
                     State(m', Alone(Some(Limited(org, count, plan.value.apiCallsPerMonth)))))
  {
    var ttl := TtlAt(x.w, now);
    var t := Counting(org, count);
    var s := State(m, Alone(Some(t)));
    var next := Next(m, t, ReadCache(0, now), k, Some(row));
    AloneSteps(x, m, t, ReadCache(0, now), k, ttl, m, next);
    evs := [ReadCache(0, now)];
    if next.value.Missed? {
      var loaded := Loaded(org, count, row);
      AloneSteps(x, m, next.value, ReadRow(0, now), k, ttl, m, Some(loaded));
      LeadOn(Traffic(x), s, evs, State(m, Alone(next)), [ReadRow(0, now)], State(m, Alone(Some(loaded))));
      var m' := Put(m, k.plan, Json(row), x.w.ttlExpiration, now);
      var known := Some(Limited(org, count, row.apiCallsPerMonth));
      AloneSteps(x, m, loaded, CachePlan(0, now), k, ttl, m', known);
      evs := evs + [ReadRow(0, now)];
      LeadOn(Traffic(x), s, evs, State(m, Alone(Some(loaded))), [CachePlan(0, now)], State(m', Alone(known)));
      evs := evs + [CachePlan(0, now)];
    }
  }

  lemma AloneCounts(x: Setting, m: UsageStore, org: OrgId, k: Slots, n: nat, now: Instant)
    requires x.cap >= 1 && ColonFree(org) && x.At(now) && k == x.SlotsAt(org, now)
    requires CountAt(m, k, n) && k.flag !in m
    ensures Leads(Traffic(x), State(m, map[]), [Arrive(0, now, org)] + [Increment(0, now)],
                  State(m[k.counter := Cell(Num(n + 1), None)], Alone(Some(Counting(org, n + 1)))))
  {
    AloneArrives(x, m, org, now);
    var m1 := m[k.counter := Cell(Num(n + 1), None)];
    assert IncrCell(m, k.counter, now) == Ok(Cell(Num(n + 1), None));
    AloneSteps(x, m, Handling(org), Increment(0, now), k, TtlAt(x.w, now), m1, Some(Counting(org, n + 1)));
    LeadOn(Traffic(x), State(m, map[]), [Arrive(0, now, org)], State(m, Alone(Some(Handling(org)))),
           [Increment(0, now)],
           State(m1, Alone(Some(Counting(org, n + 1)))));
  }

  /** From its INCR on, to the end. */
  lemma AloneFinishes(x: Setting, m: UsageStore, org: OrgId, k: Slots, row: PlanLimits, count: int, now: Instant,
                      flagAt: Instant) returns (evs: seq<Event>)
    requires x.At(now) && x.At(flagAt) && k == x.SlotsAt(org, now) && RowOf(x.w, org) == Some(row)
    ensures var (plan, m2) := LookupAt(m, k.plan, Some(row), x.w.ttlExpiration, now);
            && plan.Ok?
            && Leads(Traffic(x), State(m, Alone(Some(Counting(org, count)))), evs,
                     State(if LimitReached(plan.value.apiCallsPerMonth, count)
                           then RaiseAt(m2, k.flag, TtlAt(x.w, flagAt), flagAt).1 else m2, map[]))
  {
    var looks := AloneLooks(x, m, org, count, k, row, now);
    var (plan, m2) := LookupAt(m, k.plan, Some(row), x.w.ttlExpiration, now);
    var t := Limited(org, count, plan.value.apiCallsPerMonth);
    var j := x.SlotsAt(org, flagAt);
    assert j.flag == k.flag;
    var m3 := Wrote(m2, t, Finish(0, flagAt), j, x.w.ttlExpiration, TtlAt(x.w, flagAt));
    AloneSteps(x, m2, t, Finish(0, flagAt), j, TtlAt(x.w, flagAt), m3, None);
    LeadOn(Traffic(x), State(m, Alone(Some(Counting(org, count)))), looks, State(m2, Alone(Some(t))),
           [Finish(0, flagAt)],
           State(m3, map[]));
    evs := looks + [Finish(0, flagAt)];
  }

  lemma LoggedInParts(m: UsageStore, k: Slots, row: PlanLimits, ttlExpiration: nat, ttl: int, n: nat, now: Instant,
                      flagAt: Instant)
    requires CountAt(m, k, n)
    ensures var m1 := m[k.counter := Cell(Num(n + 1), None)];
            var (plan, m2) := LookupAt(m1, k.plan, Some(row), ttlExpiration, now);
            && plan.Ok?
            && LogAt(m, k, Some(row), ttlExpiration, ttl, now, flagAt).1
                 == if LimitReached(plan.value.apiCallsPerMonth, n + 1) then RaiseAt(m2, k.flag, ttl, flagAt).1 else m2
  {
    assert IncrCell(m, k.counter, now) == Ok(Cell(Num(n + 1), None));
  }

  /** A succeeding request of a known organization that no other interrupts leaves exactly what
      `LogAt`, the specification of `logUsage`, leaves, whenever it comes to setting the flag. */
  lemma AloneIsLogged(x: Setting, m: UsageStore, org: OrgId, k: Slots, row: PlanLimits, n: nat, now: Instant,
                      flagAt: Instant) returns (evs: seq<Event>)
    requires x.cap >= 1 && ColonFree(org) && x.At(now) && x.At(flagAt)
    requires k == x.SlotsAt(org, now) && RowOf(x.w, org) == Some(row) && CountAt(m, k, n) && k.flag !in m
    ensures Leads(Traffic(x), State(m, map[]), evs,
                  State(LogAt(m, k, Some(row), x.w.ttlExpiration, TtlAt(x.w, flagAt), now, flagAt).1, map[]))
  {
    AloneCounts(x, m, org, k, n, now);
    var m1 := m[k.counter := Cell(Num(n + 1), None)];
    var rest := AloneFinishes(x, m1, org, k, row, n + 1, now, flagAt);
    LoggedInParts(m, k, row, x.w.ttlExpiration, TtlAt(x.w, flagAt), n, now, flagAt);
    evs := [Arrive(0, now, org)] + [Increment(0, now)] + rest;
    LeadOn(Traffic(x), State(m, map[]), [Arrive(0, now, org)] + [Increment(0, now)],
           State(m1, Alone(Some(Counting(org, n + 1)))), rest,
           State(LogAt(m, k, Some(row), x.w.ttlExpiration, TtlAt(x.w, flagAt), now, flagAt).1, map[]));
  }

  // ---- The bound is attained, and the window is exact ----

  /** The two stores differ at most in these keys. */
  ghost predicate SameElsewhere(a: UsageStore, b: UsageStore, k: Slots) {
    forall j :: j != k.counter && j != k.flag && j != k.plan ==> SameAt(a, b, j)
  }

  lemma ElsewhereJoin(a: UsageStore, b: UsageStore, c: UsageStore, k: Slots)
    requires SameElsewhere(a, b, k) && SameElsewhere(b, c, k)
    ensures SameElsewhere(a, c, k)
  {
    forall j | j != k.counter && j != k.flag && j != k.plan
      ensures SameAt(a, c, j)
    {
      assert SameAt(a, b, j) && SameAt(b, c, j);
    }
  }

  lemma LogsOwnKeys(m: UsageStore, k: Slots, row: PlanLimits, ttlExpiration: nat, ttl: int, now: Instant,
                    flagAt: Instant)
    ensures SameElsewhere(LogAt(m, k, Some(row), ttlExpiration, ttl, now, flagAt).1, m, k)
  {}

  /** Nothing is in flight, n0 + j calls are counted, no flag is up, and other keys are as in m. */
  ghost function Idle(k: Slots, row: PlanLimits, n0: nat, m: UsageStore): (State, nat) -> bool {
    (s: State, j: nat) => s.tasks == map[] && Clear(s.store, k, row, n0 + j) && SameElsewhere(s.store, m, k)
  }

  lemma OneMoreRequest(x: Setting, org: OrgId, k: Slots, row: PlanLimits, n: nat, now: Instant, m: UsageStore)
    returns (evs: seq<Event>, m': UsageStore)
    requires x.cap >= 1 && ColonFree(org) && x.At(now) && k == x.SlotsAt(org, now) && k.Apart()
             && RowOf(x.w, org) == Some(row)
    requires Clear(m, k, row, n) && !LimitReached(row.apiCallsPerMonth, n + 1)
    ensures Leads(Traffic(x), State(m, map[]), evs, State(m', map[])) && Clear(m', k, row, n + 1)
    ensures SameElsewhere(m', m, k)
  {
    var ttl := TtlAt(x.w, now);
    evs := AloneIsLogged(x, m, org, k, row, n, now, now);
    ClearCallLogged(m, k, row, x.w.ttlExpiration, n, ttl, now, now);
    LogsOwnKeys(m, k, row, x.w.ttlExpiration, ttl, now, now);
    m' := LogAt(m, k, Some(row), x.w.ttlExpiration, ttl, now, now).1;
  }

  lemma SerialStage(x: Setting, org: OrgId, k: Slots, row: PlanLimits, n0: nat, m: UsageStore, now: Instant, u: State,
                    j: nat)
    requires x.cap >= 1 && ColonFree(org) && x.At(now) && k == x.SlotsAt(org, now) && k.Apart()
             && RowOf(x.w, org) == Some(row)
    requires Idle(k, row, n0, m)(u, j) && !LimitReached(row.apiCallsPerMonth, n0 + j + 1)
    ensures exists evs, v :: Leads(Traffic(x), u, evs, v) && Idle(k, row, n0, m)(v, j + 1)
  {
    var a, w := OneMoreRequest(x, org, k, row, n0 + j, now, u.store);
    ElsewhereJoin(w, u.store, m, k);
    assert u == State(u.store, map[]) && Leads(Traffic(x), u, a, State(w, map[]))
           && Idle(k, row, n0, m)(State(w, map[]), j + 1);
  }

  /** Requests one after another, up to one short of the ceiling. */
  lemma SerialRequests(x: Setting, m: UsageStore, org: OrgId, k: Slots, row: PlanLimits, n0: nat, now: Instant)
    returns (evs: seq<Event>, m': UsageStore)
    requires x.cap >= 1 && ColonFree(org) && x.At(now) && k == x.SlotsAt(org, now) && k.Apart()
             && RowOf(x.w, org) == Some(row)
    requires Clear(m, k, row, n0) && row.apiCallsPerMonth != -1
    ensures Leads(Traffic(x), State(m, map[]), evs, State(m', map[]))
            && Clear(m', k, row, Ceiling(row.apiCallsPerMonth, n0) - 1)
    ensures SameElsewhere(m', m, k)
  {
    var count: nat := Ceiling(row.apiCallsPerMonth, n0) - 1 - n0;
    var inv := Idle(k, row, n0, m);
    assert inv(State(m, map[]), 0) by { assert SameElsewhere(m, m, k); }
    forall u, j: nat | j < count && inv(u, j)
      ensures exists evs, v :: Leads(Traffic(x), u, evs, v) && inv(v, j + 1)
    {
      SerialStage(x, org, k, row, n0, m, now, u, j);
    }
    var t;
    evs, t := Stages(Traffic(x), inv, State(m, map[]), count);
    m' := t.store;
  }

  function Below(n: nat): (r: set<nat>)
    ensures forall i :: i in r <==> 0 <= i < n
    ensures |r| == n
  {
    if n == 0 then {} else {n - 1} + Below(n - 1)
  }

  function Waiting(n: nat, org: OrgId): Tasks {
    map id | id in Below(n) :: Handling(org)
  }

  lemma WaitingGrows(n: nat, org: OrgId)
    ensures TasksOf(Waiting(n, org), org) == Below(n) && Uncounted(Waiting(n, org), org) == Below(n)
    ensures Waiting(n, org)[n := Handling(org)] == Waiting(n + 1, org)
  {}

  function Queue(m: UsageStore, org: OrgId): (State, nat) -> bool {
    (s: State, n: nat) => s == State(m, Waiting(n, org))
  }

  lemma ArrivesNext(x: Setting, m: UsageStore, org: OrgId, now: Instant, n: nat)
    requires ColonFree(org) && x.At(now) && !Flagged(m, org, now) && n < x.cap
    ensures Leads(Traffic(x), State(m, Waiting(n, org)), [Arrive(n, now, org)], State(m, Waiting(n + 1, org)))
  {
    WaitingGrows(n, org);
    One(Traffic(x), State(m, Waiting(n, org)), Arrive(n, now, org));
  }

  /** As many requests as may be in flight arrive at once. */
  lemma Burst(x: Setting, m: UsageStore, org: OrgId, now: Instant) returns (evs: seq<Event>)
    requires ColonFree(org) && x.At(now) && !Flagged(m, org, now)
    ensures Leads(Traffic(x), State(m, map[]), evs, State(m, Waiting(x.cap, org)))
  {
    forall u, n: nat | n < x.cap && Queue(m, org)(u, n)
      ensures exists evs, v :: Leads(Traffic(x), u, evs, v) && Queue(m, org)(v, n + 1)
    {
      ArrivesNext(x, m, org, now, n);
      assert Leads(Traffic(x), u, [Arrive(n, now, org)], State(m, Waiting(n + 1, org)))
          && Queue(m, org)(State(m, Waiting(n + 1, org)), n + 1);
    }
    assert Waiting(0, org) == map[];
    var t;
    evs, t := Stages(Traffic(x), Queue(m, org), State(m, map[]), x.cap);
  }

  lemma WaitingAdmitted(m: UsageStore, o: Subject, cap: nat, n: nat)
    requires CountAt(m, o.k, n)
    ensures Admitted(State(m, Waiting(cap, o.org)), o) == n + cap
  {
    WaitingGrows(cap, o.org);
  }

  /** No smaller bound holds: for every finite limit and every cap some run reaches it, at any one
      instant of the window. */
  lemma AdmissionBoundAttained(x: Setting, o: Subject, n0: nat, m: UsageStore, now: Instant) returns (evs: seq<Event>)
    requires x.cap >= 1 && Observes(x, o, n0) && Clear(m, o.k, o.row, n0) && x.At(now)
    ensures Legal(Traffic(x), State(m, map[]), evs)
    ensures Admitted(After(Traffic(x), State(m, map[]), evs), o) == o.top + x.cap - 1
  {
    PeriodKept(x, o, n0, now);
    var a, m1 := SerialRequests(x, m, o.org, o.k, o.row, n0, now);
    var b := Burst(x, m1, o.org, now);
    LeadOn(Traffic(x), State(m, map[]), a, State(m1, map[]), b, State(m1, Waiting(x.cap, o.org)));
    evs := a + b;
    WaitingAdmitted(m1, o, x.cap, o.top - 1);
  }

  /** Requests one after another up to the ceiling, at the start of the window's last second: the
      flag they leave lapses one second later. */
  lemma FlagForASecond(x: Setting, m: UsageStore, org: OrgId, k: Slots, row: PlanLimits, n0: nat, now: Instant)
    returns (evs: seq<Event>, m': UsageStore)
    requires x.cap >= 1 && ColonFree(org) && x.At(now) && k == x.SlotsAt(org, now) && k.Apart()
             && RowOf(x.w, org) == Some(row)
    requires Clear(m, k, row, n0) && row.apiCallsPerMonth != -1 && TtlAt(x.w, now) == 1
    ensures Leads(Traffic(x), State(m, map[]), evs, State(m', map[]))
    ensures CountAt(m', k, Ceiling(row.apiCallsPerMonth, n0)) && FlagLeft(m', k, 1, now)
  {
    var n := Ceiling(row.apiCallsPerMonth, n0) - 1;
    var a, m1 := SerialRequests(x, m, org, k, row, n0, now);
    var b := AloneIsLogged(x, m1, org, k, row, n, now, now);
    ClearCallLogged(m1, k, row, x.w.ttlExpiration, n, 1, now, now);
    m' := LogAt(m1, k, Some(row), x.w.ttlExpiration, 1, now, now).1;
    LeadOn(Traffic(x), State(m, map[]), a, State(m1, map[]), b, State(m', map[]));
    evs := a + b;
  }

  lemma Lapsed(m: UsageStore, k: Slots, org: OrgId, now: Instant)
    requires k.flag == FlagKey(org) && FlagLeft(m, k, 1, now)
    ensures !Flagged(m, org, now + 1000)
  {}

  /** One instant after the window, a run can exceed the bound. */
  lemma BoundBreaksAfterWindow(x: Setting, org: OrgId, k: Slots, row: PlanLimits, n0: nat, m: UsageStore, top: int)
    returns (evs: seq<Event>)
    requires x.cap >= 1 && ColonFree(org) && Belong(x.w, org, x.start, k, row) && row.apiCallsPerMonth != -1
    requires Clear(m, k, row, n0) && top == Ceiling(row.apiCallsPerMonth, n0)
    requires x.start <= WindowEnd(x.w, x.start) - 999 && WindowEnd(x.w, x.start) + 1 <= x.until
    ensures Legal(Traffic(x), State(m, map[]), evs)
    ensures Admitted(After(Traffic(x), State(m, map[]), evs), Subject(org, k, row, WindowEnd(x.w, x.start), top))
            == top + x.cap
  {
    var now := WindowEnd(x.w, x.start) - 999;
    MonthFacts(x.w, x.start, now);
    SlotsApart(x.w, org, x.start, k, row);
    var a, m1 := FlagForASecond(x, m, org, k, row, n0, now);
    Lapsed(m1, k, org, now);
    var b := Burst(x, m1, org, now + 1000);
    LeadOn(Traffic(x), State(m, map[]), a, State(m1, map[]), b, State(m1, Waiting(x.cap, org)));
    evs := a + b;
    WaitingAdmitted(m1, Subject(org, k, row, WindowEnd(x.w, x.start), top), x.cap, top);
  }

  /** So the bound holds of every run exactly when no step comes after 23:59:58 of the last day. */
  lemma BoundHoldsIff(x: Setting, o: Subject, n0: nat, m: UsageStore)
    requires x.cap >= 1 && ColonFree(o.org) && Belong(x.w, o.org, x.start, o.k, o.row)
             && o.row.apiCallsPerMonth != -1
    requires o.last == WindowEnd(x.w, x.start) && x.start <= o.last - 999
    requires Clear(m, o.k, o.row, n0) && o.top == Ceiling(o.row.apiCallsPerMonth, n0)
    ensures (forall evs :: Legal(Traffic(x), State(m, map[]), evs) ==>
               Admitted(After(Traffic(x), State(m, map[]), evs), o) <= o.top + x.cap - 1)
            <==> x.until <= o.last
  {
    if x.until <= o.last {
      forall evs | Legal(Traffic(x), State(m, map[]), evs)
        ensures Admitted(After(Traffic(x), State(m, map[]), evs), o) <= o.top + x.cap - 1
      {
        AdmissionBound(x, o, n0, m, evs);
      }
    } else {
      var evs := BoundBreaksAfterWindow(x, o.org, o.k, o.row, n0, m, o.top);
    }
  }
}
