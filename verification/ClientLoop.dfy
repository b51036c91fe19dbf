/** One client's session against an arbitrary server: join, probe, then poll until something ends it. What the
    server answers and how long everything takes is an arbitrary sequence of turns. */
module ClientLoop {
  import opened Classes
  import opened Numbers
  import opened Seqs

  const MAX_CONSECUTIVE_ADMISSION_FAILURES: nat := 15
  const MIN_POLL_INTERVAL_MS: real := 50.0
  const PROBE_REFRESH_AFTER_S: real := 60.0

  datatype TicketState = Waiting | Admitted | Completed | Expired | Abandoned

  datatype Body = Malformed | Status(state: TicketState, attempt: int, hasToken: bool)

  datatype Reply = NoReply | Answer(code: nat, body: Body)

  datatype ProbeResult = ProbeResult(bytesReceived: nat, durationMs: real, ok: bool)

  datatype Transfer = Transfer(status: nat, ok: bool, reported: bool)

  /** Everything one pass of the loop meets: the poll, a probe and an estimate and a transfer if it comes to
      them, and the jitter and lateness of the sleep. */
  datatype Turn = Turn(reply: Reply, rttMs: real, pollS: real, probe: ProbeResult, probeS: real, estimateS: real,
                       transfer: Transfer, transferS: real, jitter: real, lateS: real)

  datatype Outcome =
    | CompletedOk | AbandonedRun | ExpiredRun | AdmissionUnavailable | OriginUnavailable
    | CompletedUnreported | TicketUnknown

  datatype Config = Config(minRtts: nat, abandonAfterS: real, jitterFrac: real)

  datatype Obs = Obs(samples: seq<real>, failed: nat, total: nat, probe: Option<ProbeResult>, probeTakenAt: Option<real>)

  datatype Gate = Gate(submitted: bool, neverQualified: bool)

  datatype Session = Session(clock: real, polls: nat, failures: nat, attempts: int, reruns: nat, missed: nat,
                             estimates: nat, obs: Obs, gate: Gate)

  datatype Client = Live(session: Session) | Done(session: Session, outcome: Outcome)

  /** What the join answers: nothing, or a code and, if the body parses, the poll interval. */
  datatype Join = NoJoin | JoinAnswer(code: nat, pollIntervalMs: Option<real>)

  const NO_PROBE: ProbeResult := ProbeResult(0, 0.0, false)
  const EMPTY_OBS: Obs := Obs([], 0, 0, None, None)
  const FRESH_SESSION: Session := Session(0.0, 0, 0, 0, 0, 0, 0, EMPTY_OBS, Gate(false, false))

  // ---- the observation and the gate ----

  function RequestRecorded(o: Obs, ok: bool, rttMs: Option<real>): Obs {
    if !ok then o.(total := o.total + 1, failed := o.failed + 1)
    else if rttMs.Some? && 0.0 < rttMs.value then o.(total := o.total + 1, samples := o.samples + [rttMs.value])
    else o.(total := o.total + 1)
  }

  function ProbeRecorded(o: Obs, probe: ProbeResult, at: real): Obs {
    o.(probe := Some(probe), probeTakenAt := Some(at), total := o.total + 1, failed := if probe.ok then o.failed else o.failed + 1)
  }

  predicate Stale(o: Obs, now: real) {
    o.probeTakenAt.Some? && PROBE_REFRESH_AFTER_S < now - o.probeTakenAt.value
  }

  predicate MaySubmit(g: Gate, minRtts: nat, o: Obs, attempt: int) {
    !g.submitted && attempt == 1 && minRtts <= |o.samples|
  }

  function AdmittedUnclassified(g: Gate): Gate {
    if g.submitted then g else g.(neverQualified := true)
  }

  // ---- one turn ----

  predicate Unreachable(r: Reply) { r.NoReply? || 500 <= r.code }

  predicate NotFound(r: Reply) { r.Answer? && r.code == 404 }

  /** A failed or malformed poll. */
  predicate Bad(r: Reply) { !NotFound(r) && (Unreachable(r) || r.body.Malformed?) }

  predicate Transfers(r: Reply) { r.Answer? && r.body.Status? && r.body.state == Admitted && r.body.hasToken }

  function Jittered(delayS: real, jitter: real): real {
    delayS * (1.0 + jitter)
  }

  function Sleep(intervalMs: real, jitter: real): real {
    var delay := Jittered(intervalMs / 1000.0, jitter);
    if delay < 0.0 then 0.0 else delay
  }

  function Slept(s: Session, intervalMs: real, t: Turn): Session {
    s.(clock := s.clock + Sleep(intervalMs, t.jitter) + t.lateS)
  }

  function Polled(s: Session, t: Turn): Session {
    s.(clock := s.clock + t.pollS, polls := s.polls + 1,
       obs := RequestRecorded(s.obs, !Unreachable(t.reply), if Unreachable(t.reply) then None else Some(t.rttMs)))
  }

  function Failed(s: Session, intervalMs: real, t: Turn): Client {
    var s1 := s.(failures := s.failures + 1);
    if MAX_CONSECUTIVE_ADMISSION_FAILURES <= s1.failures then Done(s1, AdmissionUnavailable)
    else Live(Slept(s1, intervalMs, t))
  }

  function Reprobed(s: Session, t: Turn): Session {
    if s.reruns == 0 && Stale(s.obs, s.clock) then
      s.(reruns := 1, clock := s.clock + t.probeS, obs := ProbeRecorded(s.obs, t.probe, s.clock + t.probeS))
    else s
  }

  function Estimated(s: Session, minRtts: nat, t: Turn, attempt: int): Session {
    if MaySubmit(s.gate, minRtts, s.obs, attempt) then
      s.(estimates := s.estimates + 1, clock := s.clock + t.estimateS, gate := s.gate.(submitted := true))
    else s
  }

  function Transferred(s: Session, intervalMs: real, t: Turn): Client {
    var s1 := s.(gate := AdmittedUnclassified(s.gate), clock := s.clock + t.transferS);
    if t.transfer.status == 503 then Done(s1, OriginUnavailable)
    else if t.transfer.ok then Done(s1, if t.transfer.reported then CompletedOk else CompletedUnreported)
    else Live(Slept(s1.(missed := s.missed + 1), intervalMs, t))
  }

  function Answered(c: Config, intervalMs: real, s: Session, t: Turn): Client
    requires t.reply.Answer? && t.reply.body.Status?
  {
    var b := t.reply.body;
    var s1 := s.(failures := 0, attempts := if s.attempts < b.attempt then b.attempt else s.attempts);
    var s2 := Estimated(Reprobed(s1, t), c.minRtts, t, b.attempt);
    match b.state
    case Expired => Done(s2.(gate := AdmittedUnclassified(s2.gate)), ExpiredRun)
    case Abandoned => Done(s2.(gate := AdmittedUnclassified(s2.gate)), AbandonedRun)
    case Completed => Done(s2, CompletedOk)
    case Admitted => if b.hasToken then Transferred(s2, intervalMs, t) else Live(Slept(s2, intervalMs, t))
    case Waiting => Live(Slept(s2, intervalMs, t))
  }

  function PlayTurn(c: Config, intervalMs: real, s: Session, t: Turn): Client {
    if c.abandonAfterS < s.clock then Done(s.(gate := AdmittedUnclassified(s.gate)), AbandonedRun)
    else
      var s1 := Polled(s, t);
      if NotFound(t.reply) then Done(s1.(gate := AdmittedUnclassified(s1.gate)), TicketUnknown)
      else if Bad(t.reply) then Failed(s1, intervalMs, t)
      else Answered(c, intervalMs, s1, t)
  }

  /** The session after the turns, or where an earlier turn ended it. */
  function Play(c: Config, intervalMs: real, start: Session, turns: seq<Turn>): Client {
    if turns == [] then Live(start)
    else
      match Play(c, intervalMs, start, turns[..|turns|-1])
      case Live(s) => PlayTurn(c, intervalMs, s, turns[|turns|-1])
      case Done(s, o) => Done(s, o)
  }

  function IntervalMs(given: real): (r: real)
    ensures MIN_POLL_INTERVAL_MS <= r && (r == given || given < r == MIN_POLL_INTERVAL_MS)
  {
    if given < MIN_POLL_INTERVAL_MS then MIN_POLL_INTERVAL_MS else given
  }

  function Started(joinS: real, probe: ProbeResult, probeS: real): Session {
    FRESH_SESSION.(clock := joinS + probeS, obs := ProbeRecorded(EMPTY_OBS, probe, joinS + probeS))
  }

  function RunFor(c: Config, join: Join, joinS: real, probe: ProbeResult, probeS: real, turns: seq<Turn>): Client {
    if join.NoJoin? || 400 <= join.code || join.pollIntervalMs.None? then
      Done(FRESH_SESSION.(clock := joinS), AdmissionUnavailable)
    else
      Play(c, IntervalMs(join.pollIntervalMs.value), Started(joinS, probe, probeS), turns)
  }

  /** Time runs forward, and the jitter is drawn from the configured range. */
  ghost predicate Sane(c: Config, t: Turn) {
    && 0.0 <= t.pollS && 0.0 <= t.probeS && 0.0 <= t.estimateS && 0.0 <= t.transferS && 0.0 <= t.lateS
    && (if 0.0 < c.jitterFrac then -c.jitterFrac <= t.jitter <= c.jitterFrac else t.jitter == 0.0)
  }

  ghost predicate AllSane(c: Config, turns: seq<Turn>) {
    forall i :: 0 <= i < |turns| ==> Sane(c, turns[i])
  }

  // ---- termination ----

  /** The shortest sleep between two polls. */
  function Floor(c: Config): real {
    if 0.0 < c.jitterFrac then 0.05 * (1.0 - c.jitterFrac) else 0.05
  }

  lemma SleepAtLeast(c: Config, intervalMs: real, t: Turn)
    requires MIN_POLL_INTERVAL_MS <= intervalMs && Sane(c, t) && c.jitterFrac < 1.0
    ensures Floor(c) <= Sleep(intervalMs, t.jitter)
  {
    JitteredAtLeast(intervalMs / 1000.0, t.jitter);
    assert Floor(c) <= 0.05 * (1.0 + t.jitter);
  }

  lemma JitteredAtLeast(delayS: real, jitter: real)
    requires 0.05 <= delayS && -1.0 <= jitter
    ensures 0.05 * (1.0 + jitter) <= Jittered(delayS, jitter)
  {
    Product(delayS - 0.05, 1.0 + jitter);
    Minus(delayS, 0.05, 1.0 + jitter);
  }

  lemma Minus(x: real, low: real, y: real)
    ensures (x - low) * y == x * y - low * y
  {
  }

  /** A turn takes at least the shortest sleep if the session goes on, and polls at most once. */
  lemma TurnTakes(c: Config, intervalMs: real, s: Session, t: Turn)
    requires MIN_POLL_INTERVAL_MS <= intervalMs && Sane(c, t) && c.jitterFrac < 1.0
    ensures var r := PlayTurn(c, intervalMs, s, t);
            && (r.Live? ==> s.clock + Floor(c) <= r.session.clock && r.session.polls == s.polls + 1)
            && (r.session.polls == s.polls || (r.session.polls == s.polls + 1 && s.clock <= c.abandonAfterS))
  {
    SleepAtLeast(c, intervalMs, t);
  }

  function Times(n: int, x: real): real {
    n as real * x
  }

  lemma TimesNext(n: int, x: real)
    ensures Times(n + 1, x) == Times(n, x) + x && Times(0, x) == 0.0
  {
  }

  lemma {:induction false} PollsTakeTime(c: Config, intervalMs: real, start: Session, turns: seq<Turn>)
    requires MIN_POLL_INTERVAL_MS <= intervalMs && AllSane(c, turns) && c.jitterFrac < 1.0
    requires 0.0 <= start.clock && start.polls == 0
    ensures var r := Play(c, intervalMs, start, turns);
            && (r.Live? ==> r.session.polls == |turns| && Times(|turns|, Floor(c)) <= r.session.clock)
            && r.session.polls <= |turns|
            && (0 < r.session.polls ==> Times(r.session.polls - 1, Floor(c)) <= c.abandonAfterS)
  {
    TimesNext(|turns| - 1, Floor(c));
    if turns != [] {
      var before := turns[..|turns|-1];
      PollsTakeTime(c, intervalMs, start, before);
      var r := Play(c, intervalMs, start, before);
      if r.Live? {
        TurnTakes(c, intervalMs, r.session, turns[|turns|-1]);
      }
    }
  }

  /** With jitter below 1 the session polls at most until its patience runs out, and a session that has had more
      turns than that has ended; without jitter the polls are at most one per twentieth of a second, plus one. */
  lemma PollsBounded(c: Config, join: Join, joinS: real, probe: ProbeResult, probeS: real, turns: seq<Turn>)
    requires AllSane(c, turns) && c.jitterFrac < 1.0 && 0.0 <= joinS && 0.0 <= probeS
    ensures var r := RunFor(c, join, joinS, probe, probeS, turns);
            && (0 < r.session.polls ==> Times(r.session.polls - 1, Floor(c)) <= c.abandonAfterS)
            && (0 < |turns| && c.abandonAfterS < Times(|turns| - 1, Floor(c)) ==> r.Done?)
            && (c.jitterFrac <= 0.0 && 0.0 <= c.abandonAfterS ==> r.session.polls <= (c.abandonAfterS / 0.05).Floor + 1)
  {
    var r := RunFor(c, join, joinS, probe, probeS, turns);
    if join.JoinAnswer? && join.code < 400 && join.pollIntervalMs.Some? {
      PollsTakeTime(c, IntervalMs(join.pollIntervalMs.value), Started(joinS, probe, probeS), turns);
    }
    if c.jitterFrac <= 0.0 && 0.0 <= c.abandonAfterS {
      assert 0 < r.session.polls ==> (r.session.polls - 1) as real * 0.05 <= c.abandonAfterS;
      assert 0 < r.session.polls ==> (r.session.polls - 1) as real <= c.abandonAfterS / 0.05;
    }
  }

  /** The bound needs it: with jitter of 1 or more, every client whose join is answered in time can poll any number
      of times in no time at all, without ever ending. */
  lemma FullJitterSpins(c: Config, join: Join, joinS: real, probe: ProbeResult, probeS: real, n: nat) returns (turns: seq<Turn>)
    requires 1.0 <= c.jitterFrac && joinS + probeS <= c.abandonAfterS
    requires join.JoinAnswer? && join.code < 400 && join.pollIntervalMs.Some?
    ensures |turns| == n && AllSane(c, turns)
    ensures var r := RunFor(c, join, joinS, probe, probeS, turns);
            r.Live? && r.session.polls == n && r.session.clock == joinS + probeS
  {
    turns := SpinFrom(c, IntervalMs(join.pollIntervalMs.value), Started(joinS, probe, probeS), n);
  }

  lemma {:induction false} SpinFrom(c: Config, intervalMs: real, start: Session, n: nat) returns (turns: seq<Turn>)
    requires 1.0 <= c.jitterFrac && start.clock <= c.abandonAfterS
    ensures |turns| == n && AllSane(c, turns)
    ensures var r := Play(c, intervalMs, start, turns);
            r.Live? && r.session.polls == start.polls + n && r.session.clock == start.clock
  {
    if n == 0 {
      turns := [];
    } else {
      var before := SpinFrom(c, intervalMs, start, n - 1);
      var t := Turn(Answer(200, Status(Waiting, 2, false)), 1.0, 0.0, NO_PROBE, 0.0, 0.0, Transfer(0, false, false), 0.0, -1.0, 0.0);
      turns := before + [t];
      assert turns[..n-1] == before;
      assert Sleep(intervalMs, -1.0) == 0.0;
    }
  }

  // ---- why it ends ----

  /** How many polls in a row have failed or been malformed at the end of the turns. */
  function Streak(turns: seq<Turn>): nat {
    if turns == [] || !Bad(turns[|turns|-1].reply) then 0 else Streak(turns[..|turns|-1]) + 1
  }

  lemma {:induction false} StreakIsBad(turns: seq<Turn>, i: nat)
    requires |turns| - Streak(turns) <= i < |turns|
    ensures Bad(turns[i].reply)
  {
    if i < |turns| - 1 {
      StreakIsBad(turns[..|turns|-1], i);
    }
  }

  lemma {:induction false} FailuresAreStreak(c: Config, intervalMs: real, start: Session, turns: seq<Turn>)
    requires start.failures == 0
    ensures var r := Play(c, intervalMs, start, turns);
            r.Live? ==> r.session.failures == Streak(turns) < MAX_CONSECUTIVE_ADMISSION_FAILURES
  {
    if turns != [] {
      FailuresAreStreak(c, intervalMs, start, turns[..|turns|-1]);
    }
  }

  /** Why a session ends at its last turn: out of patience before the poll, a 404 whatever came before, or the
      fifteenth bad poll in a row; and never otherwise with these outcomes. */
  lemma EndsBecause(c: Config, intervalMs: real, start: Session, turns: seq<Turn>)
    requires turns != [] && start.failures == 0
    requires Play(c, intervalMs, start, turns[..|turns|-1]).Live?
    ensures var before := Play(c, intervalMs, start, turns[..|turns|-1]).session;
            var last := turns[|turns|-1].reply;
            var r := Play(c, intervalMs, start, turns);
            var patient := before.clock <= c.abandonAfterS;
            && (r.Done? && r.outcome == TicketUnknown <==> patient && NotFound(last))
            && (r.Done? && r.outcome == AdmissionUnavailable <==>
                  patient && Bad(last) && Streak(turns) == MAX_CONSECUTIVE_ADMISSION_FAILURES)
            && (r.Done? && r.session.polls == before.polls <==> !patient)
  {
    FailuresAreStreak(c, intervalMs, start, turns[..|turns|-1]);
  }

  /** A session is reported as an unavailable service only after fifteen bad polls in a row. */
  lemma UnavailableAfterFifteen(c: Config, intervalMs: real, start: Session, turns: seq<Turn>)
    requires turns != [] && start.failures == 0
    requires Play(c, intervalMs, start, turns[..|turns|-1]).Live?
    requires Play(c, intervalMs, start, turns).Done? && Play(c, intervalMs, start, turns).outcome == AdmissionUnavailable
    ensures 15 <= |turns| && forall i :: |turns| - 15 <= i < |turns| ==> Bad(turns[i].reply)
  {
    EndsBecause(c, intervalMs, start, turns);
    StreakBounded(turns);
    forall i | |turns| - 15 <= i < |turns| ensures Bad(turns[i].reply) {
      StreakIsBad(turns, i);
    }
  }

  lemma {:induction false} StreakBounded(turns: seq<Turn>)
    ensures Streak(turns) <= |turns|
  {
    if turns != [] {
      StreakBounded(turns[..|turns|-1]);
    }
  }

  /** The poll was answered by something other than a server error, a 404 or an unreadable body, in time. */
  predicate Heard(c: Config, s: Session, t: Turn) {
    s.clock <= c.abandonAfterS && t.reply.Answer? && t.reply.code != 404 && t.reply.code < 500 && t.reply.body.Status?
  }

  /** Heard, and admitted with a token: the page is fetched. */
  predicate Fetches(c: Config, s: Session, t: Turn) {
    Heard(c, s, t) && t.reply.body.state == Admitted && t.reply.body.hasToken
  }

  /** How a turn ends the session, for every outcome: out of patience, unknown ticket, the fifteenth bad poll in a
      row, what the status says, or how the transfer went. A turn that does none of these does not end it. */
  lemma OutcomeIff(c: Config, intervalMs: real, s: Session, t: Turn)
    ensures var r := PlayTurn(c, intervalMs, s, t);
            var patient, missing := s.clock <= c.abandonAfterS, t.reply.Answer? && t.reply.code == 404;
            var heard, fetches, tr := Heard(c, s, t), Fetches(c, s, t), t.transfer;
            && (r == Done(r.session, AbandonedRun) <==> !patient || (heard && t.reply.body.state == Abandoned))
            && (r == Done(r.session, TicketUnknown) <==> patient && missing)
            && (r == Done(r.session, AdmissionUnavailable) <==> patient && !missing && !heard && 15 <= s.failures + 1)
            && (r == Done(r.session, ExpiredRun) <==> heard && t.reply.body.state == Expired)
            && (r == Done(r.session, OriginUnavailable) <==> fetches && tr.status == 503)
            && (r == Done(r.session, CompletedUnreported) <==> fetches && tr.status != 503 && tr.ok && !tr.reported)
            && (r == Done(r.session, CompletedOk) <==>
                  (heard && t.reply.body.state == Completed) || (fetches && tr.status != 503 && tr.ok && tr.reported))
  {
  }

  /** The turn probes again: the first probe is more than a minute old when the status has been read. */
  predicate ProbesAgain(c: Config, s: Session, t: Turn) {
    Heard(c, s, t) && s.reruns == 0 && s.obs.probeTakenAt.Some? && 60.0 < s.clock + t.pollS - s.obs.probeTakenAt.value
  }

  /** The positive round trips seen after the poll. */
  function RttsSeen(s: Session, t: Turn): nat {
    |s.obs.samples| + if t.reply.Answer? && t.reply.code < 500 && 0.0 < t.rttMs then 1 else 0
  }

  /** The turn sends the estimate: a status says attempt 1, none was sent, and enough round trips have been seen. */
  predicate SendsEstimate(c: Config, s: Session, t: Turn) {
    Heard(c, s, t) && t.reply.body.attempt == 1 && !s.gate.submitted && c.minRtts <= RttsSeen(s, t)
  }

  /** What a turn does besides: it polls unless the patience is out. */
  lemma PollsIff(c: Config, intervalMs: real, s: Session, t: Turn)
    ensures var r := PlayTurn(c, intervalMs, s, t).session;
            && r.polls == s.polls + (if s.clock <= c.abandonAfterS then 1 else 0)
            && (s.clock <= c.abandonAfterS ==> |r.obs.samples| == RttsSeen(s, t))
  {
  }

  /** It sends the estimate exactly when that is due, at most once. */
  lemma SendsIff(c: Config, intervalMs: real, s: Session, t: Turn)
    ensures var r := PlayTurn(c, intervalMs, s, t).session;
            && r.estimates == s.estimates + (if SendsEstimate(c, s, t) then 1 else 0)
            && r.gate.submitted == (s.gate.submitted || SendsEstimate(c, s, t))
  {
  }

  /** A session is flagged as never classified exactly by a turn after which no estimate is in, and which fetches a
      page or ends the session for want of patience, of a ticket, or of a future. */
  lemma FlaggedIff(c: Config, intervalMs: real, s: Session, t: Turn)
    ensures var r := PlayTurn(c, intervalMs, s, t).session;
            var gone := t.reply.Answer? && t.reply.code == 404;
            var over := Heard(c, s, t) && (t.reply.body.state == Expired || t.reply.body.state == Abandoned);
            r.gate.neverQualified
            == (s.gate.neverQualified
                || (!r.gate.submitted && (c.abandonAfterS < s.clock || gone || over || Fetches(c, s, t))))
  {
  }

  /** It probes again exactly when that is due, at most once. */
  lemma ProbesAgainIff(c: Config, intervalMs: real, s: Session, t: Turn)
    ensures var r := PlayTurn(c, intervalMs, s, t).session;
            && r.reruns == s.reruns + (if ProbesAgain(c, s, t) then 1 else 0)
            && r.obs.probeTakenAt == if ProbesAgain(c, s, t) then Some(s.clock + t.pollS + t.probeS) else s.obs.probeTakenAt
  {
  }

  /** And it counts every request, and every one that failed. */
  lemma RequestsCounted(c: Config, intervalMs: real, s: Session, t: Turn)
    ensures var r := PlayTurn(c, intervalMs, s, t).session;
            var polls, again := s.clock <= c.abandonAfterS, ProbesAgain(c, s, t);
            && r.obs.total == s.obs.total + (if polls then 1 else 0) + (if again then 1 else 0)
            && r.obs.failed == s.obs.failed + (if polls && !(t.reply.Answer? && t.reply.code < 500) then 1 else 0)
                               + (if again && !t.probe.ok then 1 else 0)
  {
  }

  /** A client that gets no usable answer to its join ends there, without a poll; any other probes the link once and
      polls. */
  lemma JoinDecides(c: Config, join: Join, joinS: real, probe: ProbeResult, probeS: real, turns: seq<Turn>)
    ensures var r := RunFor(c, join, joinS, probe, probeS, turns);
            if join.JoinAnswer? && join.code < 400 && join.pollIntervalMs.Some? then
              exists start: Session, intervalMs: real ::
                && r == Play(c, intervalMs, start, turns)
                && start.clock == joinS + probeS && start.polls == 0 && start.obs.total == 1 && start.obs.probe == Some(probe)
                && 50.0 <= intervalMs && join.pollIntervalMs.value <= intervalMs
                && (intervalMs == 50.0 || intervalMs == join.pollIntervalMs.value)
            else r.Done? && r.outcome == AdmissionUnavailable && r.session.polls == 0 && r.session.clock == joinS
  {
    if join.JoinAnswer? && join.code < 400 && join.pollIntervalMs.Some? {
      var start, intervalMs := Started(joinS, probe, probeS), IntervalMs(join.pollIntervalMs.value);
      assert RunFor(c, join, joinS, probe, probeS, turns) == Play(c, intervalMs, start, turns);
    }
  }

  /** How long a turn that goes on takes: its requests, then the jittered interval if that is positive, and however
      late the sleep wakes up. */
  lemma TurnClock(c: Config, intervalMs: real, s: Session, t: Turn)
    requires PlayTurn(c, intervalMs, s, t).Live?
    ensures var r := PlayTurn(c, intervalMs, s, t).session;
            var requests := t.pollS + (if s.reruns < r.reruns then t.probeS else 0.0)
                            + (if s.estimates < r.estimates then t.estimateS else 0.0)
                            + (if Fetches(c, s, t) then t.transferS else 0.0);
            var slept, wanted := r.clock - s.clock - requests - t.lateS, Mul(intervalMs / 1000.0, 1.0 + t.jitter);
            0.0 <= slept && wanted <= slept && (slept == wanted || slept == 0.0)
  {
    SendsIff(c, intervalMs, s, t);
    ProbesAgainIff(c, intervalMs, s, t);
    OutcomeIff(c, intervalMs, s, t);
  }

  // ---- at most one estimate, at most two probes ----

  predicate FirstAttempt(r: Reply) { r.Answer? && r.body.Status? && r.body.attempt == 1 }

  ghost predicate Accounted(c: Config, start: Session, s: Session, seen: bool) {
    && s.estimates == (if s.gate.submitted then 1 else 0)
    && (s.gate.submitted ==> seen && c.minRtts <= |s.obs.samples|)
    && s.reruns <= 1
    && s.obs.total == s.polls + 1 + s.reruns
    && s.obs.failed + |s.obs.samples| <= s.obs.total
    && s.obs.probeTakenAt.Some?
    && (s.reruns == 0 ==> s.obs.probeTakenAt.value == start.clock)
    && (s.reruns == 1 ==> PROBE_REFRESH_AFTER_S < s.clock - start.clock)
  }

  lemma PollAccounts(c: Config, start: Session, s: Session, t: Turn, seen: bool)
    requires Accounted(c, start, s, seen) && Sane(c, t)
    ensures Accounted(c, start, Polled(s, t), seen)
  {
  }

  lemma ReprobeAccounts(c: Config, start: Session, s: Session, t: Turn, seen: bool)
    requires Accounted(c, start, s, seen) && Sane(c, t)
    ensures Accounted(c, start, Reprobed(s, t), seen)
  {
  }

  lemma EstimateAccounts(c: Config, start: Session, s: Session, t: Turn, attempt: int, seen: bool)
    requires Accounted(c, start, s, seen) && Sane(c, t)
    ensures Accounted(c, start, Estimated(s, c.minRtts, t, attempt), seen || attempt == 1)
  {
  }

  /** The parts of a session that the account is about are settled before the state of the ticket is looked at. */
  lemma AnswerLeaves(c: Config, intervalMs: real, s: Session, t: Turn)
    requires t.reply.Answer? && t.reply.body.Status? && Sane(c, t)
    ensures var s1 := s.(failures := 0, attempts := if s.attempts < t.reply.body.attempt then t.reply.body.attempt else s.attempts);
            var s2 := Estimated(Reprobed(s1, t), c.minRtts, t, t.reply.body.attempt);
            var r := Answered(c, intervalMs, s, t).session;
            && r.estimates == s2.estimates && r.gate.submitted == s2.gate.submitted && r.obs == s2.obs
            && r.reruns == s2.reruns && r.polls == s2.polls && s2.clock <= r.clock
  {
  }

  lemma AnswerAccounts(c: Config, intervalMs: real, start: Session, s: Session, t: Turn, seen: bool)
    requires Accounted(c, start, s, seen) && Sane(c, t) && t.reply.Answer? && t.reply.body.Status?
    ensures Accounted(c, start, Answered(c, intervalMs, s, t).session, seen || FirstAttempt(t.reply))
  {
    var s1 := s.(failures := 0, attempts := if s.attempts < t.reply.body.attempt then t.reply.body.attempt else s.attempts);
    ReprobeAccounts(c, start, s1, t, seen);
    EstimateAccounts(c, start, Reprobed(s1, t), t, t.reply.body.attempt, seen);
    AnswerLeaves(c, intervalMs, s, t);
  }

  lemma TurnAccounts(c: Config, intervalMs: real, start: Session, s: Session, t: Turn, seen: bool)
    requires Accounted(c, start, s, seen) && Sane(c, t)
    ensures Accounted(c, start, PlayTurn(c, intervalMs, s, t).session, seen || FirstAttempt(t.reply))
  {
    PollAccounts(c, start, s, t, seen);
    if s.clock <= c.abandonAfterS && !NotFound(t.reply) && !Bad(t.reply) {
      AnswerAccounts(c, intervalMs, start, Polled(s, t), t, seen);
    }
  }

  ghost predicate SeenFirst(turns: seq<Turn>) {
    exists i :: 0 <= i < |turns| && FirstAttempt(turns[i].reply)
  }

  lemma {:induction false} RunAccounts(c: Config, intervalMs: real, start: Session, turns: seq<Turn>)
    requires AllSane(c, turns) && Accounted(c, start, start, false)
    ensures Accounted(c, start, Play(c, intervalMs, start, turns).session, SeenFirst(turns))
  {
    if turns != [] {
      var before := turns[..|turns|-1];
      RunAccounts(c, intervalMs, start, before);
      var last := turns[|turns|-1];
      assert SeenFirst(before) ==> SeenFirst(turns) by {
        if i :| 0 <= i < |before| && FirstAttempt(before[i].reply) { assert turns[i] == before[i]; }
      }
      assert FirstAttempt(last.reply) ==> SeenFirst(turns);
      var r := Play(c, intervalMs, start, before);
      if r.Live? {
        TurnAccounts(c, intervalMs, start, r.session, last, SeenFirst(before));
      }
    }
  }

  /** Whatever the server does: at most one estimate, only if some status said attempt 1 and enough round trips
      were measured; at most two probes, the second only a minute after the first; every request is counted. */
  lemma OneEstimateTwoProbes(c: Config, intervalMs: real, joinS: real, probe: ProbeResult, probeS: real, turns: seq<Turn>)
    requires AllSane(c, turns)
    ensures var s := Play(c, intervalMs, Started(joinS, probe, probeS), turns).session;
            && s.estimates <= 1
            && (s.estimates == 1 ==> SeenFirst(turns) && c.minRtts <= |s.obs.samples|)
            && 1 + s.reruns <= 2
            && (s.reruns == 1 ==> joinS + probeS + PROBE_REFRESH_AFTER_S < s.clock)
            && s.obs.total == s.polls + 1 + s.reruns
  {
    RunAccounts(c, intervalMs, Started(joinS, probe, probeS), turns);
  }

  // ---- what the session reports ----

  predicate Parsed(r: Reply) { !NotFound(r) && !Bad(r) }

  predicate Misses(t: Turn) { Parsed(t.reply) && Transfers(t.reply) && t.transfer.status != 503 && !t.transfer.ok }

  /** `m` is the highest attempt number that any parsed status has shown, or 0. */
  ghost predicate HighestAttempt(turns: seq<Turn>, m: int) {
    && 0 <= m
    && (forall i :: 0 <= i < |turns| && Parsed(turns[i].reply) ==> turns[i].reply.body.attempt <= m)
    && (m == 0 || exists i :: 0 <= i < |turns| && Parsed(turns[i].reply) && turns[i].reply.body.attempt == m)
  }

  lemma TurnTallies(c: Config, intervalMs: real, s: Session, t: Turn)
    requires PlayTurn(c, intervalMs, s, t).Live?
    ensures var r := PlayTurn(c, intervalMs, s, t).session;
            && r.attempts == (if Parsed(t.reply) && s.attempts < t.reply.body.attempt then t.reply.body.attempt else s.attempts)
            && r.missed == s.missed + if Misses(t) then 1 else 0
  {
  }

  /** While the session goes on, its attempts are the highest number it was shown, and its failed transfers are the
      admissions it missed. */
  lemma {:induction false} LiveTallies(c: Config, intervalMs: real, start: Session, turns: seq<Turn>)
    requires start.attempts == 0 && start.missed == 0
    ensures var r := Play(c, intervalMs, start, turns);
            r.Live? ==> HighestAttempt(turns, r.session.attempts) && r.session.missed == CountIf(turns, Misses)
  {
    if turns != [] {
      var most, last := turns[..|turns|-1], turns[|turns|-1];
      LiveTallies(c, intervalMs, start, most);
      var b, r := Play(c, intervalMs, start, most), Play(c, intervalMs, start, turns);
      if r.Live? {
        TurnTallies(c, intervalMs, b.session, last);
        HighestGrows(most, b.session.attempts, last, r.session.attempts);
        assert turns == most + [last];
      }
    }
  }

  lemma HighestGrows(turns: seq<Turn>, m: int, t: Turn, n: int)
    requires HighestAttempt(turns, m)
    requires n == if Parsed(t.reply) && m < t.reply.body.attempt then t.reply.body.attempt else m
    ensures HighestAttempt(turns + [t], n)
  {
    var all := turns + [t];
    assert all[|turns|] == t;
    if n == m && m != 0 {
      var i :| 0 <= i < |turns| && Parsed(turns[i].reply) && turns[i].reply.body.attempt == m;
      assert all[i] == turns[i];
    }
  }

  // ---- the two flags of the gate ----

  /** "Submitted" and "never qualified" are meant to exclude each other. A turn makes both true exactly when it
      submits an estimate after the session was already counted as never qualified: that needs an admission whose
      transfer was missed, and a later status that still says attempt 1. */
  lemma FlagsClashIff(c: Config, intervalMs: real, s: Session, t: Turn)
    requires !(s.gate.submitted && s.gate.neverQualified)
    ensures var g := PlayTurn(c, intervalMs, s, t).session.gate;
            (g.submitted && g.neverQualified) <==>
            && s.gate.neverQualified
            && s.clock <= c.abandonAfterS && !NotFound(t.reply) && !Bad(t.reply)
            && FirstAttempt(t.reply) && c.minRtts <= |Polled(s, t).obs.samples|
  {
  }

  lemma FlagsCanClash()
    ensures var c := Config(2, 900.0, 0.0);
            var missed := Turn(Answer(200, Status(Admitted, 1, true)), 30.0, 0.03, NO_PROBE, 0.0, 0.0,
                               Transfer(200, false, false), 5.0, 0.0, 0.0);
            var s := Play(c, 2000.0, Started(0.1, NO_PROBE, 1.0), [missed, missed]).session;
            s.gate == Gate(true, true) && s.estimates == 1
  {
    var c := Config(2, 900.0, 0.0);
    var missed := Turn(Answer(200, Status(Admitted, 1, true)), 30.0, 0.03, NO_PROBE, 0.0, 0.0,
                       Transfer(200, false, false), 5.0, 0.0, 0.0);
    var start := Started(0.1, NO_PROBE, 1.0);
    assert [missed, missed][..1] == [missed] && [missed][..0] == [];
    assert Play(c, 2000.0, start, []) == Live(start);
    var r := PlayTurn(c, 2000.0, start, missed);
    assert Play(c, 2000.0, start, [missed]) == r;
    assert r.Live? && |r.session.obs.samples| == 1 && r.session.gate == Gate(false, true);
    assert Play(c, 2000.0, start, [missed, missed]) == PlayTurn(c, 2000.0, r.session, missed);
  }

  // ---- in place ----

  class LinkObservation {
    var rttSamplesMs: seq<real>
    var failedRequests: nat
    var totalRequests: nat
    var probe: Option<ProbeResult>
    var probeTakenAt: Option<real>

    ghost function Contents(): Obs
      reads this
    {
      Obs(rttSamplesMs, failedRequests, totalRequests, probe, probeTakenAt)
    }

    constructor ()
      ensures Contents() == EMPTY_OBS
    {
      rttSamplesMs, failedRequests, totalRequests, probe, probeTakenAt := [], 0, 0, None, None;
    }

    method RecordRequest(ok: bool, rttMs: Option<real>)
      modifies this
      ensures Contents() == RequestRecorded(old(Contents()), ok, rttMs)
    {
      totalRequests := totalRequests + 1;
      if !ok {
        failedRequests := failedRequests + 1;
        return;
      }
      if rttMs.Some? && 0.0 < rttMs.value {
        rttSamplesMs := rttSamplesMs + [rttMs.value];
      }
    }

    method RecordProbe(result: ProbeResult, at: real)
      modifies this
      ensures Contents() == ProbeRecorded(old(Contents()), result, at)
    {
      probe := Some(result);
      probeTakenAt := Some(at);
      totalRequests := totalRequests + 1;
      if !result.ok {
        failedRequests := failedRequests + 1;
      }
    }
  }

  class EstimateGate {
    const minRttSamples: nat
    var submitted: bool
    var neverQualified: bool

    ghost function Contents(): Gate
      reads this
    {
      Gate(submitted, neverQualified)
    }

    constructor (minRttSamples: nat)
      ensures Contents() == Gate(false, false) && this.minRttSamples == minRttSamples
    {
      this.minRttSamples := minRttSamples;
      submitted, neverQualified := false, false;
    }

    method MarkAdmittedWithoutEstimate()
      modifies this
      ensures Contents() == AdmittedUnclassified(old(Contents()))
    {
      if !submitted {
        neverQualified := true;
      }
    }
  }

  /** The state of one session, and one pass of its loop. */
  class ClientSession {
    const observation: LinkObservation
    const gate: EstimateGate
    var clock: real
    var polls: nat
    var consecutiveFailures: nat
    var attempts: int
    var probeReruns: nat
    var transferFailures: nat
    var estimates: nat

    ghost function Contents(): Session
      reads this, observation, gate
    {
      Session(clock, polls, consecutiveFailures, attempts, probeReruns, transferFailures, estimates,
              observation.Contents(), gate.Contents())
    }

    constructor (minRtts: nat)
      ensures Contents() == FRESH_SESSION && gate.minRttSamples == minRtts
      ensures fresh(observation) && fresh(gate)
    {
      observation := new LinkObservation();
      gate := new EstimateGate(minRtts);
      clock, polls, consecutiveFailures, attempts, probeReruns, transferFailures, estimates := 0.0, 0, 0, 0, 0, 0, 0;
    }

    method Pause(intervalMs: real, t: Turn)
      modifies this
      ensures Contents() == Slept(old(Contents()), intervalMs, t)
    {
      var delay := Jittered(intervalMs / 1000.0, t.jitter);
      if 0.0 < delay {
        clock := clock + delay;
      }
      clock := clock + t.lateS;
    }

    method Poll(t: Turn)
      modifies this, observation
      ensures Contents() == Polled(old(Contents()), t)
    {
      clock := clock + t.pollS;
      polls := polls + 1;
      var ok := t.reply.Answer? && t.reply.code < 500;
      observation.RecordRequest(ok, if ok then Some(t.rttMs) else None);
    }

    /** A re-probe if the wait has outlived the measurement, then the estimate if it may go in. */
    method Measure(t: Turn, attempt: int)
      modifies this, observation, gate
      ensures Contents() == Estimated(Reprobed(old(Contents()), t), gate.minRttSamples, t, attempt)
    {
      if probeReruns == 0 && observation.probeTakenAt.Some?
         && PROBE_REFRESH_AFTER_S < clock - observation.probeTakenAt.value {
        probeReruns := 1;
        clock := clock + t.probeS;
        observation.RecordProbe(t.probe, clock);
      }
      if !gate.submitted && attempt == 1 && gate.minRttSamples <= |observation.rttSamplesMs| {
        estimates := estimates + 1;
        clock := clock + t.estimateS;
        gate.submitted := true;
      }
    }

    method AttemptTransfer(intervalMs: real, t: Turn) returns (ended: Option<Outcome>)
      modifies this, gate
      ensures Transferred(old(Contents()), intervalMs, t)
           == if ended.Some? then Done(Contents(), ended.value) else Live(Contents())
    {
      gate.MarkAdmittedWithoutEstimate();
      clock := clock + t.transferS;
      if t.transfer.status == 503 {
        return Some(OriginUnavailable);
      }
      if t.transfer.ok {
        return Some(if t.transfer.reported then CompletedOk else CompletedUnreported);
      }
      transferFailures := transferFailures + 1;
      Pause(intervalMs, t);
      ended := None;
    }

    /** What a status that parsed leads to. */
    method Answer(intervalMs: real, t: Turn, c: Config) returns (ended: Option<Outcome>)
      requires t.reply.Answer? && t.reply.body.Status? && gate.minRttSamples == c.minRtts
      modifies this, observation, gate
      ensures Answered(c, intervalMs, old(Contents()), t)
           == if ended.Some? then Done(Contents(), ended.value) else Live(Contents())
    {
      var b := t.reply.body;
      consecutiveFailures := 0;
      if attempts < b.attempt {
        attempts := b.attempt;
      }
      Measure(t, b.attempt);
      if b.state == Expired || b.state == Abandoned {
        gate.MarkAdmittedWithoutEstimate();
        return Some(if b.state == Expired then ExpiredRun else AbandonedRun);
      }
      if b.state == Completed {
        return Some(CompletedOk);
      }
      if b.state == Admitted && b.hasToken {
        ended := AttemptTransfer(intervalMs, t);
        return;
      }
      Pause(intervalMs, t);
      ended := None;
    }

    method Pass(c: Config, intervalMs: real, t: Turn) returns (ended: Option<Outcome>)
      requires gate.minRttSamples == c.minRtts
      modifies this, observation, gate
      ensures PlayTurn(c, intervalMs, old(Contents()), t)
           == if ended.Some? then Done(Contents(), ended.value) else Live(Contents())
    {
      if c.abandonAfterS < clock {
        gate.MarkAdmittedWithoutEstimate();
        return Some(AbandonedRun);
      }
      Poll(t);
      if t.reply.Answer? && t.reply.code == 404 {
        gate.MarkAdmittedWithoutEstimate();
        return Some(TicketUnknown);
      }
      if t.reply.NoReply? || 500 <= t.reply.code || t.reply.body.Malformed? {
        consecutiveFailures := consecutiveFailures + 1;
        if MAX_CONSECUTIVE_ADMISSION_FAILURES <= consecutiveFailures {
          return Some(AdmissionUnavailable);
        }
        Pause(intervalMs, t);
        return None;
      }
      ended := Answer(intervalMs, t, c);
    }
  }

  /** The loop of one client, over whatever the turns bring; without an outcome if the turns run out first. */
  method RunClient(c: Config, join: Join, joinS: real, probe: ProbeResult, probeS: real, turns: seq<Turn>)
    returns (session: ClientSession, ended: Option<Outcome>)
    ensures RunFor(c, join, joinS, probe, probeS, turns)
         == if ended.Some? then Done(session.Contents(), ended.value) else Live(session.Contents())
    ensures fresh(session)
  {
    session := new ClientSession(c.minRtts);
    session.clock := joinS;
    if join.NoJoin? || 400 <= join.code || join.pollIntervalMs.None? {
      ended := Some(AdmissionUnavailable);
      return;
    }
    var intervalMs := IntervalMs(join.pollIntervalMs.value);
    session.clock := joinS + probeS;
    session.observation.RecordProbe(probe, joinS + probeS);
    ended := PollLoop(session, c, intervalMs, turns);
  }

  method PollLoop(session: ClientSession, c: Config, intervalMs: real, turns: seq<Turn>) returns (ended: Option<Outcome>)
    requires session.gate.minRttSamples == c.minRtts
    modifies session, session.observation, session.gate
    ensures Play(c, intervalMs, old(session.Contents()), turns)
         == if ended.Some? then Done(session.Contents(), ended.value) else Live(session.Contents())
  {
    ghost var start := session.Contents();
    for i := 0 to |turns|
      invariant Play(c, intervalMs, start, turns[..i]) == Live(session.Contents())
    {
      assert turns[..i+1][..i] == turns[..i];
      ended := session.Pass(c, intervalMs, turns[i]);
      if ended.Some? {
        DoneStays(c, intervalMs, start, turns, i + 1);
        return;
      }
    }
    assert turns[..|turns|] == turns;
    ended := None;
  }

  lemma {:induction false} DoneStays(c: Config, intervalMs: real, start: Session, turns: seq<Turn>, n: nat)
    requires n <= |turns| && Play(c, intervalMs, start, turns[..n]).Done?
    ensures Play(c, intervalMs, start, turns) == Play(c, intervalMs, start, turns[..n])
  {
    if n == |turns| {
      assert turns[..n] == turns;
    } else {
      var before := turns[..|turns|-1];
      assert before[..n] == turns[..n];
      DoneStays(c, intervalMs, start, before, n);
    }
  }
}
