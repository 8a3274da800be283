/** When a scheduled backup runs, over every run of ticks
    (cli/internal/backup/config.go, worker.go). Times are nanoseconds of UTC. */
module Schedule {
  import opened Common

  const SECOND := 1_000_000_000
  const HOUR := 3600 * SECOND
  const DAY := 24 * HOUR

  /** What the status file keeps of a time: whole seconds. */
  function Whole(t: nat): nat {
    t / SECOND * SECOND
  }

  datatype Config = Config(enabled: bool, hourUTC: nat)

  predicate ValidHour(c: Config) {
    c.hourUTC <= 23
  }

  datatype Status = Status(lastSuccess: Option<nat>, lastAttempt: Option<nat>)

  /** The scheduled instant of the day a time is in. */
  function Scheduled(c: Config, now: nat): nat {
    now / DAY * DAY + c.hourUTC * HOUR
  }

  predicate Due(c: Config, s: Status, now: nat) {
    && c.enabled
    && now >= Scheduled(c, now)
    && (s.lastSuccess.Some? ==> s.lastSuccess.value < Scheduled(c, now))
    && (s.lastAttempt.Some? ==> now - s.lastAttempt.value >= HOUR)
  }

  /* ── runs of ticks ── */

  /** What came of a tick. A backup counts as a success once its snapshot is promoted and
      the status saved, even if retention then failed. */
  datatype Result = Skipped | NotStarted | Succeeded | Failed | Interrupted

  /** One tick: when it looked, when an attempt it made began and ended, and whether a
      person asked for it. */
  datatype Tick = Tick(at: nat, attempt: nat, end: nat, asked: bool, result: Result)

  predicate Attempted(k: Tick) {
    k.result.Succeeded? || k.result.Failed? || k.result.Interrupted?
  }

  function StatusAfter(s: Status, k: Tick): Status {
    if k.result.Succeeded? then Status(Some(Whole(k.end)), Some(Whole(k.attempt)))
    else if Attempted(k) then s.(lastAttempt := Some(Whole(k.attempt)))
    else s
  }

  function StatusBefore(s: Status, ticks: seq<Tick>, i: nat): Status
    requires i <= |ticks|
  {
    if i == 0 then s else StatusAfter(StatusBefore(s, ticks, i - 1), ticks[i - 1])
  }

  /** Ticks follow one another, since one lock serves them all; one nobody asked for
      makes an attempt exactly when a backup is due. */
  predicate IsRun(c: Config, s: Status, ticks: seq<Tick>) {
    && ValidHour(c)
    && (forall i :: 0 <= i < |ticks| ==> ticks[i].at <= ticks[i].attempt <= ticks[i].end)
    && (forall i :: 0 < i < |ticks| ==> ticks[i - 1].end <= ticks[i].at)
    && (forall i :: 0 <= i < |ticks| && !ticks[i].asked ==>
          (ticks[i].result.Skipped? <==> !Due(c, StatusBefore(s, ticks, i), ticks[i].at)))
  }

  /** A scheduled attempt. */
  predicate OnSchedule(k: Tick) {
    !k.asked && Attempted(k)
  }

  lemma WholeBelow(t: nat, scheduled: nat)
    requires scheduled % SECOND == 0 && Whole(t) < scheduled
    ensures t < scheduled
  {
  }

  lemma WholeGrows(a: nat, b: nat)
    requires a <= b
    ensures Whole(a) <= Whole(b) <= b
  {
  }

  lemma ScheduledIsWhole(c: Config, now: nat)
    ensures Scheduled(c, now) % SECOND == 0
  {
    assert Scheduled(c, now) == (now / DAY * 24 * 3600 + c.hourUTC * 3600) * SECOND;
  }

  lemma {:induction false} InOrder(c: Config, s: Status, ticks: seq<Tick>, i: nat, j: nat)
    requires IsRun(c, s, ticks) && i < j < |ticks|
    ensures ticks[i].end <= ticks[j].at
  {
    if i < j - 1 {
      InOrder(c, s, ticks, i, j - 1);
    }
  }

  /** The status remembers the last success and the last attempt. */
  lemma {:induction false} Remembers(c: Config, s: Status, ticks: seq<Tick>, i: nat, j: nat)
    requires IsRun(c, s, ticks) && i < j <= |ticks| && Attempted(ticks[i])
    ensures var st := StatusBefore(s, ticks, j);
            && st.lastAttempt.Some? && st.lastAttempt.value >= Whole(ticks[i].attempt)
            && (ticks[i].result.Succeeded? ==> st.lastSuccess.Some? && st.lastSuccess.value >= Whole(ticks[i].end))
  {
    if i < j - 1 {
      Remembers(c, s, ticks, i, j - 1);
      InOrder(c, s, ticks, i, j - 1);
      WholeGrows(ticks[i].attempt, ticks[j - 1].attempt);
      WholeGrows(ticks[i].end, ticks[j - 1].end);
    }
  }

  /** A scheduled instant lies between any success and a later scheduled attempt. */
  lemma InstantBetween(c: Config, s: Status, ticks: seq<Tick>, i: nat, j: nat)
    requires IsRun(c, s, ticks) && i < j < |ticks| && ticks[i].result.Succeeded? && OnSchedule(ticks[j])
    ensures ticks[i].end < Scheduled(c, ticks[j].at) <= ticks[j].at
  {
    Remembers(c, s, ticks, i, j);
    ScheduledIsWhole(c, ticks[j].at);
    WholeBelow(ticks[i].end, Scheduled(c, ticks[j].at));
  }

  /** The slot a time is in: from one scheduled instant to the next, counted in days. */
  function Slot(c: Config, t: nat): int {
    (t - c.hourUTC * HOUR) / DAY
  }

  /** At most one scheduled backup succeeds in each slot, and none in one where a backup
      somebody asked for already had. */
  lemma OnePerSlot(c: Config, s: Status, ticks: seq<Tick>, i: nat, j: nat)
    requires IsRun(c, s, ticks) && i < j < |ticks| && ticks[i].result.Succeeded?
    requires OnSchedule(ticks[j]) && ticks[j].result.Succeeded?
    ensures Slot(c, ticks[i].end) < Slot(c, ticks[j].end)
  {
    InstantBetween(c, s, ticks, i, j);
    var d := ticks[j].at / DAY;
    assert Scheduled(c, ticks[j].at) - c.hourUTC * HOUR == d * DAY;
    assert Slot(c, ticks[i].end) < d <= Slot(c, ticks[j].end);
  }

  /** Scheduled attempts are at least an hour, in whole seconds, after any earlier attempt. */
  lemma AnHourApart(c: Config, s: Status, ticks: seq<Tick>, i: nat, j: nat)
    requires IsRun(c, s, ticks) && i < j < |ticks| && Attempted(ticks[i]) && OnSchedule(ticks[j])
    ensures Whole(ticks[j].at) >= Whole(ticks[i].attempt) + HOUR
  {
    Remembers(c, s, ticks, i, j);
  }

  /** No tick between these made an attempt. */
  predicate NoAttempts(ticks: seq<Tick>, i: nat, j: nat)
    requires j <= |ticks|
  {
    forall m :: i <= m < j ==> !Attempted(ticks[m])
  }

  lemma {:induction false} StatusStays(s: Status, ticks: seq<Tick>, i: nat, j: nat)
    requires i <= j <= |ticks| && NoAttempts(ticks, i, j)
    ensures StatusBefore(s, ticks, j) == StatusBefore(s, ticks, i)
  {
    if i < j {
      StatusStays(s, ticks, i, j - 1);
    }
  }

  /** A time due, tried without success, and then looked at again. */
  lemma DueAgain(c: Config, s: Status, at: nat, attempt: nat, now: nat)
    requires ValidHour(c) && Due(c, s, at) && at <= attempt && at <= now
    ensures var after, retry := s.(lastAttempt := Some(Whole(attempt))), Whole(attempt) + HOUR;
            && (now / DAY == at / DAY ==> (Due(c, after, now) <==> now >= retry))
            && (now / DAY == at / DAY + 1 ==> (Due(c, after, now) <==> now >= retry && now >= Scheduled(c, now)))
  {
    if now / DAY == at / DAY + 1 {
      assert Scheduled(c, now) == Scheduled(c, at) + DAY;
    }
  }

  /** A scheduled attempt that failed or was interrupted is due again the same UTC day
      from an hour after it, and on the next day only from that day's scheduled instant. */
  lemma FailedSlotIsRetried(c: Config, s: Status, ticks: seq<Tick>, i: nat, j: nat)
    requires IsRun(c, s, ticks) && i < j < |ticks| && NoAttempts(ticks, i + 1, j)
    requires OnSchedule(ticks[i]) && !ticks[i].result.Succeeded?
    ensures var now := ticks[j].at;
            var retry := Whole(ticks[i].attempt) + HOUR;
            && (now / DAY == ticks[i].at / DAY ==> (Due(c, StatusBefore(s, ticks, j), now) <==> now >= retry))
            && (now / DAY == ticks[i].at / DAY + 1 ==>
                  (Due(c, StatusBefore(s, ticks, j), now) <==> now >= retry && now >= Scheduled(c, now)))
  {
    InOrder(c, s, ticks, i, j);
    StatusStays(s, ticks, i + 1, j);
    assert StatusBefore(s, ticks, i + 1) == StatusAfter(StatusBefore(s, ticks, i), ticks[i]);
    DueAgain(c, StatusBefore(s, ticks, i), ticks[i].at, ticks[i].attempt, ticks[j].at);
  }

  /** Every success among the first j ticks ended before this instant. */
  predicate SucceededBefore(ticks: seq<Tick>, j: nat, day: nat)
    requires j <= |ticks|
  {
    forall i :: 0 <= i < j && ticks[i].result.Succeeded? ==> Whole(ticks[i].end) < day
  }

  /** Every attempt among the first j ticks began at least an hour before this time. */
  predicate HourSinceAttempts(ticks: seq<Tick>, j: nat, now: nat)
    requires j <= |ticks|
  {
    forall i :: 0 <= i < j && Attempted(ticks[i]) ==> Whole(ticks[i].attempt) + HOUR <= now
  }

  predicate NoSuccess(ticks: seq<Tick>, j: nat)
    requires j <= |ticks|
  {
    forall i :: 0 <= i < j ==> !ticks[i].result.Succeeded?
  }

  lemma {:induction false} LastSuccessIff(c: Config, s: Status, ticks: seq<Tick>, j: nat, day: nat)
    requires IsRun(c, s, ticks) && j <= |ticks|
    ensures var st := StatusBefore(s, ticks, j);
            (st.lastSuccess.Some? ==> st.lastSuccess.value < day)
            <==> SucceededBefore(ticks, j, day) && (NoSuccess(ticks, j) && s.lastSuccess.Some? ==> s.lastSuccess.value < day)
  {
    if j > 0 {
      LastSuccessIff(c, s, ticks, j - 1, day);
      if ticks[j - 1].result.Succeeded? {
        forall i | 0 <= i < j - 1
          ensures Whole(ticks[i].end) <= Whole(ticks[j - 1].end)
        {
          InOrder(c, s, ticks, i, j - 1);
          WholeGrows(ticks[i].end, ticks[j - 1].end);
        }
      }
    }
  }

  lemma {:induction false} LastAttemptIff(c: Config, s: Status, ticks: seq<Tick>, j: nat, now: nat)
    requires IsRun(c, s, ticks) && j <= |ticks|
    ensures var st := StatusBefore(s, ticks, j);
            (st.lastAttempt.Some? ==> now - st.lastAttempt.value >= HOUR)
            <==> HourSinceAttempts(ticks, j, now)
                 && (NoAttempts(ticks, 0, j) && s.lastAttempt.Some? ==> now - s.lastAttempt.value >= HOUR)
  {
    if j > 0 {
      LastAttemptIff(c, s, ticks, j - 1, now);
      if Attempted(ticks[j - 1]) {
        forall i | 0 <= i < j - 1
          ensures Whole(ticks[i].attempt) <= Whole(ticks[j - 1].attempt)
        {
          InOrder(c, s, ticks, i, j - 1);
          WholeGrows(ticks[i].attempt, ticks[j - 1].attempt);
        }
      }
    }
  }

  /** A slot that was missed, say because the node was down, is due all that UTC day from its
      scheduled instant on, exactly until a backup has succeeded in it and except for the
      hour after any attempt. What the status file said counts until a tick replaces it. */
  lemma MissedSlotIsDue(c: Config, s: Status, ticks: seq<Tick>, j: nat)
    requires IsRun(c, s, ticks) && j < |ticks|
    ensures var now, day := ticks[j].at, Scheduled(c, ticks[j].at);
            Due(c, StatusBefore(s, ticks, j), now)
            <==> && c.enabled && now >= day
                 && SucceededBefore(ticks, j, day) && (NoSuccess(ticks, j) && s.lastSuccess.Some? ==> s.lastSuccess.value < day)
                 && HourSinceAttempts(ticks, j, now)
                 && (NoAttempts(ticks, 0, j) && s.lastAttempt.Some? ==> now - s.lastAttempt.value >= HOUR)
  {
    LastSuccessIff(c, s, ticks, j, Scheduled(c, ticks[j].at));
    LastAttemptIff(c, s, ticks, j, ticks[j].at);
  }
}
