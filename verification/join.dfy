/** The automatic join: which link a run uses, and its bounded retry loop.
    Each browser step is abstracted to the outcome of one attempt, given by
    the caller in the order the attempts would happen. */
module Join {
  import opened Clock
  import opened Schedule
  import opened Notices

  /** Attempts a run makes at most. */
  const RetryLimit: nat := 2

  /** The browser steps an attempt goes through, in order. */
  datatype Step = OpenUrl | BrowserJoin | DisplayName | NoAudio | JoinNow

  /** How one attempt ends: a step whose control was not found (the session
      is closed), any other error in the session, the host not admitting
      within the waiting limit, or admission into the meeting. */
  datatype AttemptOutcome = StepFailed(step: Step) | SessionError | HostTimedOut | Admitted

  /** The failures after which a non-final attempt is followed by another. */
  predicate Retryable(o: AttemptOutcome) {
    o.StepFailed? || o.SessionError?
  }

  /** The failure reported when a step's control is not found on the last
      attempt: its own message, distinct from the lookup, timeout and
      session failures. */
  function StepFailure(s: Step): (r: JoinFailure)
    ensures !r.NoFutureSchedule? && !r.NextUrlMissing? && r != HostTimeout && r != ProgramError
  {
    match s
    case OpenUrl => CannotOpenUrl
    case BrowserJoin => NoBrowserJoinButton
    case DisplayName => NoNameField
    case NoAudio => NoAudioOption
    case JoinNow => NoJoinNowButton
  }

  /** Different steps are reported with different messages. */
  lemma StepFailureInjective(a: Step, b: Step)
    ensures StepFailure(a) == StepFailure(b) ==> a == b
  {
  }

  /** The one message that ends a run whose last attempt ended with `o`. */
  function Terminal(o: AttemptOutcome): (r: Notice)
    ensures r == Joined <==> o == Admitted
    ensures r.JoinFailed? <==> o != Admitted
    ensures r == JoinFailed(HostTimeout) <==> o == HostTimedOut
    ensures r == JoinFailed(ProgramError) <==> o == SessionError
  {
    match o
    case Admitted => Joined
    case HostTimedOut => JoinFailed(HostTimeout)
    case StepFailed(s) => JoinFailed(StepFailure(s))
    case SessionError => JoinFailed(ProgramError)
  }

  /** What a run did: the link it opened ("" when it made no attempt), the
      number of attempts and the messages it pushed. */
  datatype JoinRun = JoinRun(target: string, attempts: nat, notices: seq<Notice>)

  /** The attempts from number `done + 1` on, the first `done` having ended
      with retryable failures. An attempt that ends with admission or with
      the host timeout ends the run; a failure ends it only on the last
      allowed attempt. */
  function AttemptsFrom(url: string, outcomes: seq<AttemptOutcome>, done: nat): (r: JoinRun)
    requires done <= RetryLimit <= |outcomes|
    ensures r.target == url && done <= r.attempts <= RetryLimit
    ensures done < RetryLimit ==> done < r.attempts
    ensures forall j :: done <= j < r.attempts - 1 ==> Retryable(outcomes[j])
    ensures done < r.attempts < RetryLimit ==> !Retryable(outcomes[r.attempts - 1])
    ensures r.notices == if done < RetryLimit then [Terminal(outcomes[r.attempts - 1])] else []
    decreases RetryLimit - done
  {
    if done == RetryLimit then JoinRun(url, done, [])
    else
      var o := outcomes[done];
      if !Retryable(o) || done + 1 == RetryLimit then JoinRun(url, done + 1, [Terminal(o)])
      else AttemptsFrom(url, outcomes, done + 1)
  }

  /** A whole run. Without a link given, the nearest record at or after now
      supplies it; a record that does not parse makes the run raise before
      any attempt and without any message. */
  function JoinSpec(overrideUrl: string, es: seq<Entry>, now: Moment, outcomes: seq<AttemptOutcome>): (r: JoinRun)
    requires |outcomes| >= RetryLimit
    ensures r.attempts <= RetryLimit && |r.notices| <= 1
    ensures r.attempts > 0 ==> r.target != ""
  {
    if overrideUrl != "" then AttemptsFrom(overrideUrl, outcomes, 0)
    else match NearestFuture(es, now)
      case Unparsable => JoinRun("", 0, [])
      case NoFuture => JoinRun("", 0, [JoinFailed(NoFutureSchedule)])
      case Nearest(i) =>
        if es[i].url == "" then JoinRun("", 0, [JoinFailed(NextUrlMissing(es[i].date, es[i].time))])
        else AttemptsFrom(es[i].url, outcomes, 0)
  }

  /** The link a run uses: the given one, else that of the nearest future
      record; with no such link it makes no attempt and reports why. */
  lemma {:induction false} RunTarget(overrideUrl: string, es: seq<Entry>, now: Moment, outcomes: seq<AttemptOutcome>)
    requires |outcomes| >= RetryLimit
    ensures var r := JoinSpec(overrideUrl, es, now, outcomes);
      && (overrideUrl != "" ==> r.target == overrideUrl && r.attempts >= 1)
      && (overrideUrl != "" ==> r == AttemptsFrom(overrideUrl, outcomes, 0))
      && (overrideUrl == "" && (exists k :: 0 <= k < |es| && !Parses(es[k])) ==> r == JoinRun("", 0, []))
      && (overrideUrl == "" && (forall k :: 0 <= k < |es| ==> Parses(es[k])) ==>
            forall i :: IsNearest(es, i, now) && es[i].url != "" ==> r == AttemptsFrom(es[i].url, outcomes, 0))
      && (overrideUrl == "" && r.attempts > 0 ==>
            exists i :: IsNearest(es, i, now) && es[i].url != "" && r.target == es[i].url)
      && (overrideUrl == "" && (forall k :: 0 <= k < |es| ==> Parses(es[k]))
            && (forall k :: 0 <= k < |es| ==> !IsFuture(es[k], now)) ==>
            r.attempts == 0 && r.notices == [JoinFailed(NoFutureSchedule)])
      && (overrideUrl == "" && (forall k :: 0 <= k < |es| ==> Parses(es[k])) ==>
            forall i :: IsNearest(es, i, now) && es[i].url == "" ==>
              r.attempts == 0 && r.notices == [JoinFailed(NextUrlMissing(es[i].date, es[i].time))])
  {
    if overrideUrl == "" {
      match NearestFuture(es, now)
      case Unparsable =>
      case NoFuture =>
      case Nearest(n) =>
        forall i | IsNearest(es, i, now) ensures i == n {
          NearestUnique(es, i, n, now);
        }
    }
  }

  /** Once a run has a link, it reports exactly once: the success message if
      an attempt was admitted before any terminal failure, otherwise the
      failure of the attempt that ended it. */
  lemma {:induction false} ExactlyOneReport(url: string, outcomes: seq<AttemptOutcome>)
    requires |outcomes| >= RetryLimit
    ensures var r := AttemptsFrom(url, outcomes, 0);
      && 1 <= r.attempts <= RetryLimit
      && |r.notices| == 1
      && (Joined in r.notices <==>
            exists j :: 0 <= j < RetryLimit && outcomes[j] == Admitted
                        && forall i :: 0 <= i < j ==> Retryable(outcomes[i]))
  {
    var r := AttemptsFrom(url, outcomes, 0);
    if Joined in r.notices {
      assert outcomes[r.attempts - 1] == Admitted;
    }
    if exists j :: 0 <= j < RetryLimit && outcomes[j] == Admitted
                   && forall i :: 0 <= i < j ==> Retryable(outcomes[i]) {
      var j :| 0 <= j < RetryLimit && outcomes[j] == Admitted
               && forall i :: 0 <= i < j ==> Retryable(outcomes[i]);
      if j < r.attempts - 1 {
        assert Retryable(outcomes[j]);
      }
      if r.attempts - 1 < j {
        assert Retryable(outcomes[r.attempts - 1]);
      }
    }
  }

  /** A run whose every attempt fails at some step uses up all the attempts
      and ends with the failure of the last one, never with success. */
  lemma AllAttemptsFail(url: string, outcomes: seq<AttemptOutcome>)
    requires |outcomes| >= RetryLimit
    requires forall j :: 0 <= j < RetryLimit ==> outcomes[j].StepFailed?
    ensures var r := AttemptsFrom(url, outcomes, 0);
      && r.attempts == RetryLimit
      && r.notices == [JoinFailed(StepFailure(outcomes[RetryLimit - 1].step))]
      && Joined !in r.notices
  {
  }

  /** A host timeout ends the run at once, on any attempt. */
  lemma TimeoutIsTerminal(url: string, outcomes: seq<AttemptOutcome>, j: nat)
    requires |outcomes| >= RetryLimit && j < RetryLimit
    requires outcomes[j] == HostTimedOut && forall i :: 0 <= i < j ==> Retryable(outcomes[i])
    ensures AttemptsFrom(url, outcomes, 0) == JoinRun(url, j + 1, [JoinFailed(HostTimeout)])
  {
  }

  /** `auto_join_meeting`: the link lookup, then at most `RetryLimit`
      attempts. */
  method AutoJoinMeeting(overrideUrl: string, es: seq<Entry>, now: Moment, outcomes: seq<AttemptOutcome>)
    returns (r: JoinRun)
    requires |outcomes| >= RetryLimit
    ensures r == JoinSpec(overrideUrl, es, now, outcomes)
  {
    var url := overrideUrl;
    if url == "" {
      match NearestFuture(es, now) {
        case Unparsable =>
          return JoinRun("", 0, []);
        case NoFuture =>
          return JoinRun("", 0, [JoinFailed(NoFutureSchedule)]);
        case Nearest(i) =>
          var nearest := es[i];
          if nearest.url == "" {
            return JoinRun("", 0, [JoinFailed(NextUrlMissing(nearest.date, nearest.time))]);
          }
          url := nearest.url;
      }
    }
    var attempt := 1;
    while attempt <= RetryLimit
      invariant 1 <= attempt <= RetryLimit + 1
      invariant AttemptsFrom(url, outcomes, attempt - 1) == JoinSpec(overrideUrl, es, now, outcomes)
    {
      var o := outcomes[attempt - 1];
      match o {
        case Admitted =>
          return JoinRun(url, attempt, [Joined]);
        case HostTimedOut =>
          return JoinRun(url, attempt, [JoinFailed(HostTimeout)]);
        case StepFailed(s) =>
          if attempt == RetryLimit {
            return JoinRun(url, attempt, [JoinFailed(StepFailure(s))]);
          }
        case SessionError =>
          if attempt == RetryLimit {
            return JoinRun(url, attempt, [JoinFailed(ProgramError)]);
          }
      }
      attempt := attempt + 1;
    }
    return JoinRun(url, RetryLimit, []);
  }
}
