/**
 * Recovery of a cron monitor's environment on a check-in (`mark_ok` in
 * src/sentry/monitors/logic/mark_ok.py).
 *
 * A monitor environment is one row of the store, updated in place; it is
 * modelled by the class `MonitorEnvironment`. The decision what to write is a
 * pure function of the monitor, the row, the check-in and the newest-first
 * check-in history (`MarkOkResult`); the method `MarkOk` performs it and is
 * proved to agree with that function. Timestamps are integer seconds.
 */
module MarkOk {
  import opened Wrappers

  /** Status of a single check-in. Only OK is distinguished by `mark_ok`. */
  datatype CheckInStatus = Unknown | Ok | Error | InProgress | Missed | Timeout

  /** Lifecycle status of the monitor object. Only DISABLED is distinguished. */
  datatype ObjectStatus = Active | Disabled | PendingDeletion | DeletionInProgress

  /** Status stored on a monitor environment. Only OK is distinguished. */
  datatype MonitorStatus =
    | Active | Disabled | PendingDeletion | DeletionInProgress
    | Ok | Error | MissedCheckin | Timeout

  /** One stored check-in of a monitor environment. */
  datatype CheckIn = CheckIn(status: CheckInStatus, dateAdded: int)

  /**
   * The monitor that owns the environment. `recoveryThreshold` is the
   * config's "recovery_threshold" entry (None when the key is missing);
   * the two schedule functions are the monitor's own computation of the
   * next expected check-in, left uninterpreted.
   */
  datatype Monitor = Monitor(
    status: ObjectStatus,
    recoveryThreshold: Option<nat>,
    nextExpected: int -> int,
    nextExpectedLatest: int -> int)

  /** The columns of a monitor environment row that `mark_ok` may write. */
  datatype EnvState = EnvState(
    status: MonitorStatus,
    lastCheckin: Option<int>,
    nextCheckin: Option<int>,
    nextCheckinLatest: Option<int>,
    lastStateChange: Option<int>)

  /**
   * The keyword arguments of the final update: the three schedule columns
   * are always present, `status` and `lastStateChange` only when set.
   */
  datatype Params = Params(
    lastCheckin: int,
    nextCheckin: int,
    nextCheckinLatest: int,
    status: Option<MonitorStatus>,
    lastStateChange: Option<int>)

  /** `config.get("recovery_threshold", 0)`. */
  function RecoveryThreshold(m: Monitor): (n: nat)
    ensures m.recoveryThreshold.None? ==> n == 0
    ensures m.recoveryThreshold.Some? ==> n == m.recoveryThreshold.value
  {
    m.recoveryThreshold.GetOr(0)
  }

  /** The newest `n` check-ins of a newest-first history (a slice `[:n]`). */
  function RecoveryWindow(history: seq<CheckIn>, n: nat): (w: seq<CheckIn>)
    ensures |w| == if |history| < n then |history| else n
    ensures w <= history
  {
    if |history| <= n then history else history[..n]
  }

  predicate AllOk(checkins: seq<CheckIn>) {
    forall i :: 0 <= i < |checkins| ==> checkins[i].status.Ok?
  }

  /** The debounce gate: with a non-zero threshold, the window must be all OK. */
  predicate RecoveryConfirmed(threshold: nat, history: seq<CheckIn>) {
    threshold == 0 || AllOk(RecoveryWindow(history, threshold))
  }

  /** The dictionary `params` that `mark_ok` builds for the update. */
  function RecoveryParams(m: Monitor, envStatus: MonitorStatus, checkin: CheckInStatus, ts: int): (p: Params)
    ensures p.lastCheckin == ts
    ensures p.nextCheckin == m.nextExpected(ts) && p.nextCheckinLatest == m.nextExpectedLatest(ts)
    ensures p.status.Some? <==> checkin.Ok? && !m.status.Disabled?
    ensures p.status.Some? ==> p.status.value.Ok?
    ensures p.lastStateChange.Some? <==> checkin.Ok? && !envStatus.Ok?
    ensures p.lastStateChange.Some? ==> p.lastStateChange.value == ts
  {
    var always := Params(ts, m.nextExpected(ts), m.nextExpectedLatest(ts), None, None);
    if checkin.Ok? then
      always.(
        status := if !m.status.Disabled? then Some(MonitorStatus.Ok) else None,
        lastStateChange := if !envStatus.Ok? then Some(ts) else None)
    else
      always
  }

  /** `last_checkin__gt=ts`: the stored check-in is strictly newer; NULL never is. */
  predicate NewerThan(lastCheckin: Option<int>, ts: int) {
    lastCheckin.Some? && lastCheckin.value > ts
  }

  /**
   * `filter(id=...).exclude(last_checkin__gt=ts).update(**params)` on one row:
   * the row is left alone when it holds a newer check-in, otherwise the
   * columns named in `p` are overwritten and the others kept.
   */
  function Apply(s: EnvState, p: Params, ts: int): (r: EnvState)
    ensures NewerThan(s.lastCheckin, ts) ==> r == s
    ensures !NewerThan(s.lastCheckin, ts) ==>
      && r.lastCheckin == Some(p.lastCheckin)
      && r.nextCheckin == Some(p.nextCheckin)
      && r.nextCheckinLatest == Some(p.nextCheckinLatest)
      && r.status == p.status.GetOr(s.status)
      && r.lastStateChange == (if p.lastStateChange.Some? then p.lastStateChange else s.lastStateChange)
  {
    if NewerThan(s.lastCheckin, ts) then s
    else
      EnvState(
        p.status.GetOr(s.status),
        Some(p.lastCheckin),
        Some(p.nextCheckin),
        Some(p.nextCheckinLatest),
        if p.lastStateChange.Some? then p.lastStateChange else s.lastStateChange)
  }

  /** Whether `mark_ok` reaches and performs its write. */
  predicate Writes(m: Monitor, s: EnvState, ts: int, history: seq<CheckIn>) {
    RecoveryConfirmed(RecoveryThreshold(m), history) && !NewerThan(s.lastCheckin, ts)
  }

  /** The row after `mark_ok(checkin, ts)`, given the history the gate reads. */
  function MarkOkResult(m: Monitor, s: EnvState, checkin: CheckInStatus, ts: int, history: seq<CheckIn>): (r: EnvState)
    // debounce: an unconfirmed recovery leaves the row as it was
    ensures !RecoveryConfirmed(RecoveryThreshold(m), history) ==> r == s
    // out-of-order check-in: a newer stored check-in wins
    ensures NewerThan(s.lastCheckin, ts) ==> r == s
    // the schedule columns follow the check-in whenever the write happens
    ensures Writes(m, s, ts, history) ==>
      && r.lastCheckin == Some(ts)
      && r.nextCheckin == Some(m.nextExpected(ts))
      && r.nextCheckinLatest == Some(m.nextExpectedLatest(ts))
    ensures r.status ==
      if Writes(m, s, ts, history) && checkin.Ok? && !m.status.Disabled? then MonitorStatus.Ok else s.status
    ensures r.lastStateChange ==
      if Writes(m, s, ts, history) && checkin.Ok? && !s.status.Ok? then Some(ts) else s.lastStateChange
    // a failing check-in never changes status or the state-change mark
    ensures !checkin.Ok? ==> r.status == s.status && r.lastStateChange == s.lastStateChange
  {
    if !RecoveryConfirmed(RecoveryThreshold(m), history) then s
    else Apply(s, RecoveryParams(m, s.status, checkin, ts), ts)
  }

  /** The gate read without the slice: every check-in among the newest `n` is OK. */
  lemma {:induction false} RecoveryConfirmedIff(n: nat, history: seq<CheckIn>)
    ensures RecoveryConfirmed(n, history) <==>
      n == 0 || forall i :: 0 <= i < |history| && i < n ==> history[i].status.Ok?
  {
    var w := RecoveryWindow(history, n);
    assert forall i :: 0 <= i < |w| ==> w[i] == history[i];
  }

  /** Fewer check-ins than the threshold: the gate checks all of them, and none is vacuously fine. */
  lemma ShortHistoryGate(n: nat, history: seq<CheckIn>)
    requires 0 < n && |history| < n
    ensures RecoveryConfirmed(n, history) <==> AllOk(history)
    ensures RecoveryConfirmed(n, [])
  {
  }

  /** Processing the same check-in twice gives the same row as processing it once. */
  lemma MarkOkIdempotent(m: Monitor, s: EnvState, checkin: CheckInStatus, ts: int, history: seq<CheckIn>)
    ensures var once := MarkOkResult(m, s, checkin, ts, history);
      MarkOkResult(m, once, checkin, ts, history) == once
  {
  }

  /** `last_checkin` never moves backwards, and only ever takes the check-in's timestamp. */
  lemma LastCheckinMonotone(m: Monitor, s: EnvState, checkin: CheckInStatus, ts: int, history: seq<CheckIn>)
    ensures var r := MarkOkResult(m, s, checkin, ts, history);
      && (s.lastCheckin.Some? ==> r.lastCheckin.Some? && r.lastCheckin.value >= s.lastCheckin.value)
      && (r.lastCheckin == s.lastCheckin || r.lastCheckin == Some(ts))
  {
  }

  /**
   * Two check-ins processed in either order leave the same schedule columns:
   * those of the later-stamped check-in whose recovery is confirmed. Each
   * check-in sees the same history in both orders.
   */
  lemma OutOfOrderScheduleConverges(
    m: Monitor, s: EnvState,
    c1: CheckInStatus, t1: int, h1: seq<CheckIn>,
    c2: CheckInStatus, t2: int, h2: seq<CheckIn>)
    ensures
      var a := MarkOkResult(m, MarkOkResult(m, s, c1, t1, h1), c2, t2, h2);
      var b := MarkOkResult(m, MarkOkResult(m, s, c2, t2, h2), c1, t1, h1);
      a.lastCheckin == b.lastCheckin && a.nextCheckin == b.nextCheckin && a.nextCheckinLatest == b.nextCheckinLatest
  {
  }

  /**
   * One monitor environment row. The class holds the columns `mark_ok` may
   * write; `State()` is their value.
   */
  class MonitorEnvironment {
    const id: int
    const monitor: Monitor
    var status: MonitorStatus
    var lastCheckin: Option<int>
    var nextCheckin: Option<int>
    var nextCheckinLatest: Option<int>
    var lastStateChange: Option<int>

    function State(): EnvState
      reads this
    {
      EnvState(status, lastCheckin, nextCheckin, nextCheckinLatest, lastStateChange)
    }

    constructor (id: int, monitor: Monitor, s: EnvState)
      ensures this.id == id && this.monitor == monitor && State() == s
    {
      this.id := id;
      this.monitor := monitor;
      status := s.status;
      lastCheckin := s.lastCheckin;
      nextCheckin := s.nextCheckin;
      nextCheckinLatest := s.nextCheckinLatest;
      lastStateChange := s.lastStateChange;
    }

    /** The filtered update of this row; reports whether the row matched. */
    method ConditionalUpdate(p: Params, ts: int) returns (updated: bool)
      modifies this
      ensures updated <==> !NewerThan(old(lastCheckin), ts)
      ensures State() == Apply(old(State()), p, ts)
    {
      updated := !(lastCheckin.Some? && lastCheckin.value > ts);
      if updated {
        lastCheckin := Some(p.lastCheckin);
        nextCheckin := Some(p.nextCheckin);
        nextCheckinLatest := Some(p.nextCheckinLatest);
        if p.status.Some? {
          status := p.status.value;
        }
        if p.lastStateChange.Some? {
          lastStateChange := p.lastStateChange;
        }
      }
    }
  }

  /**
   * `mark_ok(checkin, ts)` for the check-in's environment `env`;
   * `history` is that environment's check-ins, newest first, as the store
   * returns them when the gate queries it.
   */
  method MarkOk(checkin: CheckIn, env: MonitorEnvironment, ts: int, history: seq<CheckIn>)
    modifies env
    ensures env.State() == MarkOkResult(env.monitor, old(env.State()), checkin.status, ts, history)
  {
    var recoveryThreshold := RecoveryThreshold(env.monitor);
    if recoveryThreshold != 0 {
      var previousCheckins := RecoveryWindow(history, recoveryThreshold);
      if !AllOk(previousCheckins) {
        return;
      }
    }
    var nextCheckin := env.monitor.nextExpected(ts);
    var nextCheckinLatest := env.monitor.nextExpectedLatest(ts);
    var params := Params(ts, nextCheckin, nextCheckinLatest, None, None);
    if checkin.status.Ok? {
      if !env.monitor.status.Disabled? {
        params := params.(status := Some(MonitorStatus.Ok));
      }
      if !env.status.Ok? {
        params := params.(lastStateChange := Some(ts));
      }
    }
    var _ := env.ConditionalUpdate(params, ts);
  }

  /** Threshold 2, newest-first history [OK, ERROR]: the recovery is suppressed. */
  lemma ScenarioFlappingSuppressed(m: Monitor, s: EnvState, ts: int)
    requires m.recoveryThreshold == Some(2)
    ensures MarkOkResult(m, s, CheckInStatus.Ok, ts,
      [CheckIn(CheckInStatus.Ok, ts), CheckIn(CheckInStatus.Error, ts - 60)]) == s
  {
    var history := [CheckIn(CheckInStatus.Ok, ts), CheckIn(CheckInStatus.Error, ts - 60)];
    assert RecoveryWindow(history, 2)[1].status.Error?;
  }

  /** Threshold 2, newest-first history [OK, OK], monitor active: the environment recovers. */
  lemma ScenarioConfirmedRecovery(m: Monitor, s: EnvState, ts: int)
    requires m.recoveryThreshold == Some(2) && m.status.Active?
    requires s.status.Error? && s.lastCheckin == Some(ts - 60)
    ensures var r := MarkOkResult(m, s, CheckInStatus.Ok, ts,
      [CheckIn(CheckInStatus.Ok, ts), CheckIn(CheckInStatus.Ok, ts - 60)]);
      r.status.Ok? && r.lastStateChange == Some(ts) && r.lastCheckin == Some(ts)
  {
    var history := [CheckIn(CheckInStatus.Ok, ts), CheckIn(CheckInStatus.Ok, ts - 60)];
    assert AllOk(RecoveryWindow(history, 2));
  }

  /** last_checkin = 10, a check-in stamped 5 arrives: nothing changes. */
  lemma ScenarioStaleCheckInIgnored(m: Monitor, s: EnvState, c: CheckInStatus, history: seq<CheckIn>)
    requires s.lastCheckin == Some(10)
    ensures MarkOkResult(m, s, c, 5, history) == s
  {
  }
}
