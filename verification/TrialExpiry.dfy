/** `TrialExpiryScheduler`: the nightly cancel-then-suspend run. */
module TrialExpiry {
  import opened Ttl
  import opened Organizations

  const GRACE := 5 * 24 * 60 * 60 * 1000

  /** One run: each phase reads the clock once and its bulk update either happens or fails. */
  datatype CronRun = CronRun(cancelAt: Instant, cancelOk: bool, suspendAt: Instant, suspendOk: bool)

  predicate EndedBefore(org: Org, t: Instant) {
    org.trialEndsAt.Some? && org.trialEndsAt.value < t
  }

  predicate ToCancel(org: Org, at: Instant) {
    org.isActive && org.paymentStatus == Suspended && EndedBefore(org, at - GRACE) && org.subscriptionId.None?
  }

  predicate ToSuspend(org: Org, at: Instant) {
    org.isActive && org.paymentStatus == Trial && EndedBefore(org, at) && org.subscriptionId.None?
  }

  function Cancel(org: Org): Org {
    org.(paymentStatus := Cancelled, isActive := false)
  }

  function Suspend(org: Org): Org {
    org.(paymentStatus := Suspended)
  }

  /** One run as one organization sees it. */
  function NightOf(org: Org, r: CronRun): Org {
    var o1 := if r.cancelOk && ToCancel(org, r.cancelAt) then Cancel(org) else org;
    if r.suspendOk && ToSuspend(o1, r.suspendAt) then Suspend(o1) else o1
  }

  function Night(orgs: Orgs, r: CronRun): Orgs {
    map id | id in orgs :: NightOf(orgs[id], r)
  }

  class TrialExpiryScheduler {
    const service: OrganizationService

    constructor (service: OrganizationService)
      ensures this.service == service
    {
      this.service := service;
    }

    method HandleCron(r: CronRun)
      modifies service
      ensures service.orgs == Night(old(service.orgs), r)
    {
      // Each phase catches its own failure, so the second runs whatever the first did.
      if r.cancelOk {
        var _ := service.UpdateMany(org => ToCancel(org, r.cancelAt), Cancel);
      }
      if r.suspendOk {
        var _ := service.UpdateMany(org => ToSuspend(org, r.suspendAt), Suspend);
      }
    }
  }

  function Nights(org: Org, runs: seq<CronRun>): Org {
    if runs == [] then org else NightOf(Nights(org, runs[..|runs| - 1]), runs[|runs| - 1])
  }

  predicate SuspendsAfter(r: CronRun, trialEnd: Instant) {
    r.suspendOk && trialEnd < r.suspendAt
  }

  predicate CancelsAfter(r: CronRun, trialEnd: Instant) {
    r.cancelOk && trialEnd + GRACE < r.cancelAt
  }

  predicate SuspendedBy(runs: seq<CronRun>, trialEnd: Instant) {
    exists i :: 0 <= i < |runs| && SuspendsAfter(runs[i], trialEnd)
  }

  /** Some run's cancel phase succeeded past the grace period, strictly after a run that suspended. */
  predicate CancelledBy(runs: seq<CronRun>, trialEnd: Instant) {
    exists j :: 0 <= j < |runs| && SuspendedBy(runs[..j], trialEnd) && CancelsAfter(runs[j], trialEnd)
  }

  predicate OnUnpaidTrial(org: Org) {
    org.isActive && org.paymentStatus == Trial && org.subscriptionId.None? && org.trialEndsAt.Some?
  }

  /** For any run times and any failures: an unsubscribed trial is untouched until the first
      successful suspend phase after its end, then suspended until the first successful cancel
      phase of a later run past the grace period, then cancelled for good. Applied to every
      prefix of a run, this says when each change happens. */
  lemma {:induction false} TrialTimeline(org: Org, runs: seq<CronRun>)
    requires OnUnpaidTrial(org)
    ensures var e := org.trialEndsAt.value;
            Nights(org, runs) ==
              if CancelledBy(runs, e) then Cancel(org) else if SuspendedBy(runs, e) then Suspend(org) else org
  {
    if runs != [] {
      var n := |runs| - 1;
      var e := org.trialEndsAt.value;
      TrialTimeline(org, runs[..n]);
      SuspendedExtends(runs, e);
      CancelledExtends(runs, e);
      if CancelledBy(runs[..n], e) { CancelledWasSuspended(runs[..n], e); }
    }
  }

  lemma SuspendedExtends(runs: seq<CronRun>, e: Instant)
    requires runs != []
    ensures var n := |runs| - 1; SuspendedBy(runs, e) <==> SuspendedBy(runs[..n], e) || SuspendsAfter(runs[n], e)
  {
    var n := |runs| - 1;
    if i :| 0 <= i < |runs| && SuspendsAfter(runs[i], e) {
      if i < n { assert SuspendsAfter(runs[..n][i], e); }
    }
    if i :| 0 <= i < n && SuspendsAfter(runs[..n][i], e) { assert SuspendsAfter(runs[i], e); }
  }

  lemma CancelledExtends(runs: seq<CronRun>, e: Instant)
    requires runs != []
    ensures var n := |runs| - 1;
            CancelledBy(runs, e) <==>
              CancelledBy(runs[..n], e) || (SuspendedBy(runs[..n], e) && CancelsAfter(runs[n], e))
  {
    var n := |runs| - 1;
    if j :| 0 <= j < |runs| && SuspendedBy(runs[..j], e) && CancelsAfter(runs[j], e) {
      if j < n { assert runs[..n][..j] == runs[..j] && CancelsAfter(runs[..n][j], e); }
    }
    if j :| 0 <= j < n && SuspendedBy(runs[..n][..j], e) && CancelsAfter(runs[..n][j], e) {
      assert runs[..n][..j] == runs[..j] && CancelsAfter(runs[j], e);
    }
  }

  lemma CancelledWasSuspended(runs: seq<CronRun>, e: Instant)
    requires CancelledBy(runs, e)
    ensures SuspendedBy(runs, e)
  {
    var j :| 0 <= j < |runs| && SuspendedBy(runs[..j], e) && CancelsAfter(runs[j], e);
    var i :| 0 <= i < j && SuspendsAfter(runs[..j][i], e);
    assert SuspendsAfter(runs[i], e);
  }

  /** Every night at the same time and nothing fails. */
  predicate ExactDaily(runs: seq<CronRun>, first: Instant) {
    forall i :: 0 <= i < |runs| ==> runs[i] == CronRun(first + i * 86400000, true, first + i * 86400000, true)
  }

  /** With exact 24-hour runs, the first of them not after the trial's end, the suspending run is
      the first after the end and the cancelling run is exactly the fifth after that one. */
  lemma {:induction false} FiveNightsLater(org: Org, runs: seq<CronRun>, first: Instant, k: nat)
    requires OnUnpaidTrial(org) && ExactDaily(runs, first) && first <= org.trialEndsAt.value
    requires first + (k - 1) * 86400000 <= org.trialEndsAt.value < first + k * 86400000
    ensures Nights(org, runs) ==
              if |runs| <= k then org else if |runs| <= k + 5 then Suspend(org) else Cancel(org)
  {
    var e := org.trialEndsAt.value;
    TrialTimeline(org, runs);
    DailySuspension(runs, first, e, k);
    forall j | 0 <= j < |runs|
      ensures SuspendedBy(runs[..j], e) && CancelsAfter(runs[j], e) <==> j >= k + 5
    {
      DailySuspension(runs[..j], first, e, k);
    }
    if |runs| > k + 5 { assert SuspendedBy(runs[..k + 5], e) && CancelsAfter(runs[k + 5], e); }
  }

  lemma DailySuspension(runs: seq<CronRun>, first: Instant, e: Instant, k: nat)
    requires ExactDaily(runs, first) && first + (k - 1) * 86400000 <= e < first + k * 86400000
    ensures SuspendedBy(runs, e) <==> |runs| > k
  {
    forall i | 0 <= i < |runs|
      ensures SuspendsAfter(runs[i], e) <==> i >= k
    {}
    if |runs| > k { assert SuspendsAfter(runs[k], e); }
  }

  /** What one run does to any organization, condition by condition: an active, suspended one without
      a subscription is cancelled and deactivated when its trial ended more than five days before the
      cancel phase; an active one on trial without a subscription is suspended when its trial ended
      before the suspend phase; any other is left as it is. */
  lemma NightExact(org: Org, r: CronRun)
    ensures NightOf(org, r) ==
              if r.cancelOk && org.isActive && org.paymentStatus == Suspended && org.subscriptionId.None?
                 && org.trialEndsAt.Some? && org.trialEndsAt.value < r.cancelAt - 432000000
              then org.(paymentStatus := Cancelled, isActive := false)
              else if r.suspendOk && org.isActive && org.paymentStatus == Trial && org.subscriptionId.None?
                      && org.trialEndsAt.Some? && org.trialEndsAt.value < r.suspendAt
              then org.(paymentStatus := Suspended)
              else org
  {}
}
