/** The scheduler thread: one cycle of its polling loop, the missing-link
    reminder cadence and the minute triggers, and what a sequence of cycles
    does. */
module Runner {
  import opened Wrappers
  import opened Clock
  import opened Schedule
  import opened Notices
  import opened Bot
  import opened Commands

  /** Seconds between two reminder sweeps at a given hour of the day, or
      None in the hours without reminders: every two hours in the daytime,
      every five minutes in the evening, never between midnight and six. */
  function RemindInterval(hour: int): (r: Option<nat>)
    ensures r.None? <==> hour < 6 || 24 <= hour
    ensures r == Some(7200) <==> 6 <= hour < 17
    ensures r == Some(300) <==> 17 <= hour < 24
  {
    if 6 <= hour < 17 then Some(2 * 60 * 60)
    else if 17 <= hour < 24 then Some(5 * 60)
    else None
  }

  /** What the loop carries from one cycle to the next: the reading at the
      last sweep and the date it belongs to, and the last minute whose
      triggers were run. */
  datatype RunnerState = RunnerState(
    lastRemindTime: Option<Moment>,
    lastRemindDate: Option<Date>,
    lastTriggerMinute: Option<(Date, Time)>)

  const Initial := RunnerState(None, None, None)

  /** The last sweep's reading belongs to the remembered date. */
  predicate Coherent(s: RunnerState) {
    s.lastRemindTime.Some? ==> s.lastRemindDate == Some(s.lastRemindTime.value.date)
  }

  /** Start of a cycle: on a new date the previous sweep is forgotten. */
  function Reset(s: RunnerState, today: Date): (r: RunnerState)
    requires Coherent(s)
    ensures Coherent(r) && r.lastRemindDate == Some(today)
    ensures r.lastRemindTime.Some? ==> r.lastRemindTime == s.lastRemindTime
  {
    if s.lastRemindDate == Some(today) then s
    else s.(lastRemindDate := Some(today), lastRemindTime := None)
  }

  /** Elapsed time from `earlier` to `later`, two readings of the same day. */
  function ElapsedMicros(earlier: Moment, later: Moment): int
    requires earlier.date == later.date
  {
    DayMicros(later) - DayMicros(earlier)
  }

  /** A sweep is due: the hour has an interval, and there was no sweep yet
      today or the last one is at least that interval ago. It is never due
      in an hour without reminders, and always due in the first hour with
      reminders that sees no sweep yet. */
  predicate SweepDue(s: RunnerState, now: Moment)
    requires Coherent(s) && s.lastRemindDate == Some(now.date)
    ensures SweepDue(s, now) ==> RemindInterval(now.time.hour).Some?
    ensures s.lastRemindTime.None? ==> (SweepDue(s, now) <==> RemindInterval(now.time.hour).Some?)
  {
    match RemindInterval(now.time.hour)
    case None => false
    case Some(interval) =>
      s.lastRemindTime.None?
      || ElapsedMicros(s.lastRemindTime.value, now) >= interval * MicrosPerSecond
  }

  /** Whether the cycle at `now`, from state `s`, runs the reminder sweep:
      in an hour with reminders, on the first cycle of a new date, after no
      sweep yet today, or once the interval has passed since the last sweep
      of the same day. */
  predicate Sweeps(s: RunnerState, now: Moment)
    requires Coherent(s)
    ensures Sweeps(s, now) <==>
      && RemindInterval(now.time.hour).Some?
      && (|| s.lastRemindDate != Some(now.date)
          || s.lastRemindTime.None?
          || DayMicros(now) - DayMicros(s.lastRemindTime.value)
               >= RemindInterval(now.time.hour).value * MicrosPerSecond)
  {
    SweepDue(Reset(s, now.date), now)
  }

  /** The loop's variables after the reminder half of a pass: reset, then,
      if a sweep ran, this reading remembered. */
  function RemindState(s: RunnerState, now: Moment): (r: RunnerState)
    requires Coherent(s)
    ensures Coherent(r) && r.lastRemindDate == Some(now.date) && r.lastTriggerMinute == s.lastTriggerMinute
    ensures r.lastRemindTime == if Sweeps(s, now) then Some(now) else Reset(s, now.date).lastRemindTime
  {
    var s1 := Reset(s, now.date);
    if SweepDue(s1, now) then s1.(lastRemindTime := Some(now)) else s1
  }

  /** What the reminder half of a pass pushes: the missing-link warning,
      when a sweep runs and a record dated today has no link. */
  function RemindWorld(s: RunnerState, w: World, now: Moment): (r: World)
    requires Coherent(s)
    ensures r.schedules == w.schedules && r.launched == w.launched
    ensures r.outbox == w.outbox + if Sweeps(s, now) && HasMissingUrl(w.schedules, now.date)
                                   then [UrlMissingToday] else []
  {
    if Sweeps(s, now) then MissingUrlReminder(w, now.date) else w
  }

  /** A record's "date time" equals the current minute. */
  predicate Matches(e: Entry, now: Moment) {
    e.date == now.date && e.time == now.time
  }

  /** Matching by the numbers is matching the rendered "YYYY-MM-DD HH:MM"
      texts, as the loop compares them. */
  lemma MatchesIsStampEquality(e: Entry, now: Moment)
    requires Renderable(e.date, e.time) && Renderable(now.date, now.time)
    ensures Matches(e, now) <==> Stamp(e.date, e.time) == Stamp(now.date, now.time)
  {
    StampInjective(e.date, e.time, now.date, now.time);
  }

  /** The message a matching record sends: the missing-link warning when
      it has no link, otherwise the announcement of its join. */
  function Announcement(e: Entry): (n: Notice)
    ensures n == TriggerWithoutUrl(e.date, e.time) <==> e.url == ""
    ensures n == TriggerJoining(e.date, e.time) <==> e.url != ""
  {
    if e.url == "" then TriggerWithoutUrl(e.date, e.time) else TriggerJoining(e.date, e.time)
  }

  /** The trigger for one record: nothing unless it matches; a warning if it
      has no link; otherwise an announcement and a join with its link. */
  function TriggerOne(w: World, e: Entry, now: Moment): (r: World)
    ensures r.schedules == w.schedules
    ensures r.outbox == w.outbox + if Matches(e, now) then [Announcement(e)] else []
    ensures r.launched == w.launched + if Matches(e, now) && e.url != "" then [UseUrl(e.url)] else []
  {
    if !Matches(e, now) then w
    else if e.url == "" then w.(outbox := w.outbox + [TriggerWithoutUrl(e.date, e.time)])
    else w.(outbox := w.outbox + [TriggerJoining(e.date, e.time)], launched := w.launched + [UseUrl(e.url)])
  }

  /** Records that start a join at `now`. */
  function DueCount(es: seq<Entry>, now: Moment): (n: nat)
    ensures n <= |es|
    decreases |es|
  {
    if es == [] then 0
    else DueCount(es[..|es| - 1], now) + (if Matches(es[|es| - 1], now) && es[|es| - 1].url != "" then 1 else 0)
  }

  /** Records that match `now`. */
  function MatchCount(es: seq<Entry>, now: Moment): (n: nat)
    ensures DueCount(es, now) <= n <= |es|
    decreases |es|
  {
    if es == [] then 0
    else MatchCount(es[..|es| - 1], now) + (if Matches(es[|es| - 1], now) then 1 else 0)
  }

  /** The triggers for the records `es`, in list order. */
  function TriggerAll(w: World, es: seq<Entry>, now: Moment): (r: World)
    ensures r.schedules == w.schedules
    ensures |r.outbox| == |w.outbox| + MatchCount(es, now) && r.outbox[..|w.outbox|] == w.outbox
    ensures |r.launched| == |w.launched| + DueCount(es, now) && r.launched[..|w.launched|] == w.launched
    ensures forall k :: |w.launched| <= k < |r.launched| ==>
      exists e :: e in es && Matches(e, now) && e.url != "" && r.launched[k] == UseUrl(e.url)
    decreases |es|
  {
    if es == [] then w
    else
      var prev := TriggerAll(w, es[..|es| - 1], now);
      assert forall e :: e in es[..|es| - 1] ==> e in es;
      assert es[|es| - 1] in es;
      TriggerOne(prev, es[|es| - 1], now)
  }

  /** A record triggers in the cycle exactly when its text equals the minute:
      with no matching record the trigger pass changes nothing. */
  lemma {:induction false} NoMatchNoTrigger(w: World, es: seq<Entry>, now: Moment)
    requires forall k :: 0 <= k < |es| ==> !Matches(es[k], now)
    ensures TriggerAll(w, es, now) == w
    decreases |es|
  {
    if es != [] {
      NoMatchNoTrigger(w, es[..|es| - 1], now);
    }
  }

  /** A matching record with a link starts a join with that link; one
      without a link sends a warning and starts nothing. */
  lemma {:induction false} EachMatchFires(w: World, es: seq<Entry>, now: Moment, i: nat)
    requires i < |es| && Matches(es[i], now)
    ensures es[i].url != "" ==> UseUrl(es[i].url) in TriggerAll(w, es, now).launched
    ensures es[i].url == "" ==> TriggerWithoutUrl(es[i].date, es[i].time) in TriggerAll(w, es, now).outbox
    decreases |es|
  {
    var r := TriggerAll(w, es, now);
    if i == |es| - 1 {
    } else {
      var prev := TriggerAll(w, es[..|es| - 1], now);
      EachMatchFires(w, es[..|es| - 1], now, i);
      assert prev.launched <= r.launched && prev.outbox <= r.outbox;
    }
  }

  /** A record whose minute differs adds nothing to the trigger pass,
      whatever the other records do. */
  lemma SkipsNonMatching(w: World, es: seq<Entry>, e: Entry, now: Moment)
    requires !Matches(e, now)
    ensures TriggerAll(w, es + [e], now) == TriggerAll(w, es, now)
  {
    assert (es + [e])[..|es|] == es;
  }

  /** The records of `es` that match `now`, in list order. */
  function MatchingOnly(es: seq<Entry>, now: Moment): (r: seq<Entry>)
    ensures |r| == MatchCount(es, now)
    ensures forall k :: 0 <= k < |r| ==> Matches(r[k], now)
    decreases |es|
  {
    if es == [] then []
    else MatchingOnly(es[..|es| - 1], now) + (if Matches(es[|es| - 1], now) then [es[|es| - 1]] else [])
  }

  /** The messages a list of records sends, one per record, in order. */
  function Announcements(ms: seq<Entry>): (r: seq<Notice>)
    ensures |r| == |ms| && forall k :: 0 <= k < |ms| ==> r[k] == Announcement(ms[k])
    decreases |ms|
  {
    if ms == [] then [] else Announcements(ms[..|ms| - 1]) + [Announcement(ms[|ms| - 1])]
  }

  /** The joins a list of records starts: one per linked record, in order. */
  function JoinsOf(ms: seq<Entry>): seq<JoinRequest>
    decreases |ms|
  {
    if ms == [] then []
    else JoinsOf(ms[..|ms| - 1]) + (if ms[|ms| - 1].url != "" then [UseUrl(ms[|ms| - 1].url)] else [])
  }

  /** Exactly the messages the trigger pass adds: one per matching record,
      in list order. */
  lemma {:induction false} TriggerAllAnnounces(w: World, es: seq<Entry>, now: Moment)
    ensures TriggerAll(w, es, now).outbox == w.outbox + Announcements(MatchingOnly(es, now))
    decreases |es|
  {
    if es != [] {
      var p, x := es[..|es| - 1], es[|es| - 1];
      TriggerAllAnnounces(w, p, now);
      var m := MatchingOnly(p, now);
      var prev := TriggerAll(w, p, now);
      assert TriggerAll(w, es, now) == TriggerOne(prev, x, now);
      if Matches(x, now) {
        assert MatchingOnly(es, now) == m + [x];
        assert (m + [x])[..|m|] == m;
        assert Announcements(m + [x]) == Announcements(m) + [Announcement(x)];
      } else {
        assert MatchingOnly(es, now) == m;
      }
    }
  }

  /** Exactly the joins the trigger pass starts: one per matching record
      with a link, in list order. */
  lemma {:induction false} TriggerAllLaunches(w: World, es: seq<Entry>, now: Moment)
    ensures TriggerAll(w, es, now).launched == w.launched + JoinsOf(MatchingOnly(es, now))
    decreases |es|
  {
    if es != [] {
      var p, x := es[..|es| - 1], es[|es| - 1];
      TriggerAllLaunches(w, p, now);
      var m := MatchingOnly(p, now);
      var prev := TriggerAll(w, p, now);
      assert TriggerAll(w, es, now) == TriggerOne(prev, x, now);
      if Matches(x, now) {
        assert MatchingOnly(es, now) == m + [x];
        assert (m + [x])[..|m|] == m;
        assert JoinsOf(m + [x]) == JoinsOf(m) + if x.url != "" then [UseUrl(x.url)] else [];
      } else {
        assert MatchingOnly(es, now) == m;
      }
    }
  }

  /** One pass of the loop as written: every pass runs the trigger pass,
      so every poll that falls in a record's minute fires that record again. */
  function CycleAsWritten(s: RunnerState, w: World, now: Moment): (r: (RunnerState, World))
    requires Coherent(s)
    ensures Coherent(r.0) && r.0.lastRemindDate == Some(now.date) && r.1.schedules == w.schedules
  {
    var w1 := RemindWorld(s, w, now);
    (RemindState(s, now), TriggerAll(w1, w1.schedules, now))
  }

  /** The loop as written changes its reminder variables as the corrected
      loop does and leaves the triggered minute alone, so the reminder
      lemmas over `StateTrace` hold for it too. */
  lemma AsWrittenRemindsAlike(s: RunnerState, w: World, now: Moment)
    requires Coherent(s)
    ensures CycleAsWritten(s, w, now).0 == NextState(s, now).(lastTriggerMinute := s.lastTriggerMinute)
  {
  }

  /** The trigger pass runs once per minute: not again in a minute whose
      triggers have already run. */
  predicate TriggersEnabled(s: RunnerState, now: Moment) {
    s.lastTriggerMinute != Some((now.date, now.time))
  }

  /** The loop's variables after a pass: the reminder state, and this
      minute remembered as triggered. */
  function NextState(s: RunnerState, now: Moment): (r: RunnerState)
    requires Coherent(s)
    ensures Coherent(r) && r.lastRemindDate == Some(now.date)
    ensures r.lastTriggerMinute == Some((now.date, now.time))
    ensures r.lastRemindTime == RemindState(s, now).lastRemindTime
  {
    RemindState(s, now).(lastTriggerMinute := Some((now.date, now.time)))
  }

  /** One pass of the scheduler loop, with the trigger pass guarded by the
      last triggered minute: on a new minute it does what the pass as
      written does, otherwise only the reminder. */
  function CycleSpec(s: RunnerState, w: World, now: Moment): (r: (RunnerState, World))
    requires Coherent(s)
    ensures r.0 == NextState(s, now) && r.1.schedules == w.schedules
    ensures TriggersEnabled(s, now) ==> r.1 == CycleAsWritten(s, w, now).1
    ensures !TriggersEnabled(s, now) ==> r.1 == RemindWorld(s, w, now)
  {
    var w1 := RemindWorld(s, w, now);
    (NextState(s, now), if TriggersEnabled(s, now) then TriggerAll(w1, w1.schedules, now) else w1)
  }

  /** Between midnight and six a pass sends no reminder and leaves the
      remembered sweep as the reset left it. */
  lemma NightIsQuiet(s: RunnerState, w: World, now: Moment)
    requires Coherent(s) && 0 <= now.time.hour < 6
    ensures !Sweeps(s, now) && RemindWorld(s, w, now) == w
    ensures RemindState(s, now) == Reset(s, now.date)
  {
  }

  // ---------------------------------------------------------------------
  // Sequences of passes.
  // ---------------------------------------------------------------------

  /** The readings come in clock order. */
  predicate Chronological(nows: seq<Moment>) {
    forall a, b :: 0 <= a < b < |nows| ==> MomentAtMost(nows[a], nows[b])
  }

  predicate SameMinute(a: Moment, b: Moment) {
    a.date == b.date && a.time == b.time
  }

  /** The loop's variables after one pass per reading. */
  function StateTrace(s: RunnerState, nows: seq<Moment>): (r: RunnerState)
    requires Coherent(s)
    ensures Coherent(r)
    ensures nows != [] ==> r.lastTriggerMinute == Some((nows[|nows| - 1].date, nows[|nows| - 1].time))
    ensures nows != [] ==> r.lastRemindDate == Some(nows[|nows| - 1].date)
    decreases |nows|
  {
    if nows == [] then s else NextState(StateTrace(s, nows[..|nows| - 1]), nows[|nows| - 1])
  }

  /** The loop's variables and the bot after one pass per reading; the
      variables do not depend on the bot. */
  function RunTrace(s: RunnerState, w: World, nows: seq<Moment>): (r: (RunnerState, World))
    requires Coherent(s)
    ensures r.0 == StateTrace(s, nows) && r.1.schedules == w.schedules
    decreases |nows|
  {
    if nows == [] then (s, w)
    else
      var (s1, w1) := RunTrace(s, w, nows[..|nows| - 1]);
      CycleSpec(s1, w1, nows[|nows| - 1])
  }

  /** A reading between two readings of one minute is in that minute. */
  lemma BetweenSameMinute(a: Moment, b: Moment, c: Moment)
    requires MomentAtMost(a, b) && MomentAtMost(b, c) && SameMinute(a, c)
    ensures SameMinute(a, b)
  {
    BeforeIsStrictTotalOrder(a.date, a.time, b.date, b.time, c.date, c.time);
  }

  /** In clock order, a pass in a minute some earlier pass already saw
      starts no join: each minute's records fire at most once. */
  lemma {:induction false} TriggersOncePerMinute(s: RunnerState, w: World, nows: seq<Moment>, i: nat, j: nat)
    requires Coherent(s) && Chronological(nows)
    requires i < j < |nows| && SameMinute(nows[i], nows[j])
    ensures RunTrace(s, w, nows[..j + 1]).1.launched == RunTrace(s, w, nows[..j]).1.launched
  {
    var before := RunTrace(s, w, nows[..j]);
    assert nows[..j + 1][..j] == nows[..j];
    assert nows[..j][j - 1] == nows[j - 1];
    BetweenSameMinute(nows[i], nows[j - 1], nows[j]);
    assert !TriggersEnabled(before.0, nows[j]);
  }

  /** What pass `j` remembers of the last sweep within one day: its own
      reading if it swept, else what the passes before it remembered. */
  lemma PassRemembers(s: RunnerState, nows: seq<Moment>, j: nat)
    requires Coherent(s) && 0 < j < |nows| && nows[j - 1].date == nows[j].date
    ensures var prev := StateTrace(s, nows[..j]);
      StateTrace(s, nows[..j + 1]).lastRemindTime
      == if Sweeps(prev, nows[j]) then Some(nows[j]) else prev.lastRemindTime
  {
    assert nows[..j + 1][..j] == nows[..j];
    assert nows[..j][j - 1] == nows[j - 1];
  }

  /** The remembered sweep after the first `j` readings of one day, where a
      sweep happened at reading `i < j`: one at or after `i`. */
  lemma {:induction false} LastSweepAtOrAfter(s: RunnerState, nows: seq<Moment>, i: nat, j: nat)
    requires Coherent(s) && i < j <= |nows|
    requires forall k :: 0 <= k < |nows| ==> nows[k].date == nows[0].date
    requires Sweeps(StateTrace(s, nows[..i]), nows[i])
    ensures exists k :: i <= k < j && StateTrace(s, nows[..j]).lastRemindTime == Some(nows[k])
    decreases j
  {
    if j == i + 1 {
      assert nows[..i + 1][..i] == nows[..i];
      assert StateTrace(s, nows[..j]).lastRemindTime == Some(nows[i]);
    } else {
      LastSweepAtOrAfter(s, nows, i, j - 1);
      var k :| i <= k < j - 1 && StateTrace(s, nows[..j - 1]).lastRemindTime == Some(nows[k]);
      PassRemembers(s, nows, j - 1);
      var last := if Sweeps(StateTrace(s, nows[..j - 1]), nows[j - 1]) then j - 1 else k;
      assert StateTrace(s, nows[..j]).lastRemindTime == Some(nows[last]);
    }
  }

  /** Within one day, in clock order, two sweeps are at least the later
      hour's interval apart. */
  lemma {:induction false} SweepsSpaced(s: RunnerState, nows: seq<Moment>, i: nat, j: nat)
    requires Coherent(s) && Chronological(nows) && i < j < |nows|
    requires forall k :: 0 <= k < |nows| ==> nows[k].date == nows[0].date && ValidMoment(nows[k])
    requires Sweeps(StateTrace(s, nows[..i]), nows[i])
    requires Sweeps(StateTrace(s, nows[..j]), nows[j])
    ensures RemindInterval(nows[j].time.hour).Some?
    ensures DayMicros(nows[j]) - DayMicros(nows[i]) >= RemindInterval(nows[j].time.hour).value * MicrosPerSecond
  {
    LastSweepAtOrAfter(s, nows, i, j);
    var st := StateTrace(s, nows[..j]);
    var k :| i <= k < j && st.lastRemindTime == Some(nows[k]);
    assert nows[..j][j - 1] == nows[j - 1];
    if i < k {
      assert MomentAtMost(nows[i], nows[k]);
    }
  }

  // ---------------------------------------------------------------------
  // The repeated trigger of the loop as written.
  // ---------------------------------------------------------------------

  /** As written, every cycle whose reading falls in a linked record's
      minute starts another join with that record's link. */
  lemma AsWrittenFiresEveryPoll(s: RunnerState, w: World, now: Moment, i: nat)
    requires Coherent(s) && i < |w.schedules|
    requires Matches(w.schedules[i], now) && w.schedules[i].url != ""
    ensures UseUrl(w.schedules[i].url) in CycleAsWritten(s, w, now).1.launched[|w.launched|..]
  {
    var w1 := RemindWorld(s, w, now);
    EachMatchFires(w1.(launched := []), w1.schedules, now, i);
    TriggerFrom(w1, w1.schedules, now);
  }

  /** The trigger pass appends the same joins whatever came before. */
  lemma {:induction false} TriggerFrom(w: World, es: seq<Entry>, now: Moment)
    ensures TriggerAll(w, es, now).launched == w.launched + TriggerAll(w.(launched := []), es, now).launched
    decreases |es|
  {
    if es != [] {
      TriggerFrom(w, es[..|es| - 1], now);
    }
  }

  const Meeting := Entry(Date(2025, 11, 16), Time(17, 25), TeamsPrefix + "l/meetup-join/x")

  /** Polls at 17:25:00, 17:25:20 and 17:25:40 of the record's day. */
  function Poll(seconds: int): Moment {
    Moment(Date(2025, 11, 16), Time(17, 25), seconds * MicrosPerSecond)
  }

  /** As written, a pass in the record's minute starts one more join of it,
      whatever the loop's variables. */
  lemma PollFires(s: RunnerState, w: World, seconds: int)
    requires Coherent(s) && w.schedules == [Meeting]
    ensures CycleAsWritten(s, w, Poll(seconds)).1.launched == w.launched + [UseUrl(Meeting.url)]
  {
    var w1 := RemindWorld(s, w, Poll(seconds));
    assert w1.schedules[..0] == [];
  }

  /** Three polls in the record's minute: the loop as written starts three
      joins of the same meeting. */
  lemma TripleFire()
    ensures var w := World([Meeting], [], []);
      var (s1, w1) := CycleAsWritten(Initial, w, Poll(0));
      var (s2, w2) := CycleAsWritten(s1, w1, Poll(20));
      var (s3, w3) := CycleAsWritten(s2, w2, Poll(40));
      w3.launched == [UseUrl(Meeting.url), UseUrl(Meeting.url), UseUrl(Meeting.url)]
  {
    var w := World([Meeting], [], []);
    var (s1, w1) := CycleAsWritten(Initial, w, Poll(0));
    var (s2, w2) := CycleAsWritten(s1, w1, Poll(20));
    PollFires(Initial, w, 0);
    PollFires(s1, w1, 20);
    PollFires(s2, w2, 40);
  }

  /** The same three polls with the guarded cycle start one join. */
  lemma SingleFire()
    ensures RunTrace(Initial, World([Meeting], [], []), [Poll(0), Poll(20), Poll(40)]).1.launched
      == [UseUrl(Meeting.url)]
  {
    var w := World([Meeting], [], []);
    var nows := [Poll(0), Poll(20), Poll(40)];
    assert Chronological(nows);
    assert nows[..1] == [Poll(0)] && nows[..3] == nows;
    assert [Poll(0)][..0] == [];
    PollFires(Initial, w, 0);
    assert RunTrace(Initial, w, nows[..1]).1.launched == [UseUrl(Meeting.url)];
    TriggersOncePerMinute(Initial, w, nows, 0, 1);
    TriggersOncePerMinute(Initial, w, nows, 0, 2);
  }

  // ---------------------------------------------------------------------
  // The loop's variables, updated in place.
  // ---------------------------------------------------------------------

  /** The scheduler loop's variables: the reading and date of the last
      sweep, which the loop as written keeps, and the last triggered minute,
      which only the corrected loop adds. `PassAsWritten` is a pass of the
      loop as written and leaves that minute alone; `Cycle` is a pass of the
      corrected loop. */
  class Runner {
    var lastRemindTime: Option<Moment>
    var lastRemindDate: Option<Date>
    var lastTriggerMinute: Option<(Date, Time)>

    function State(): RunnerState
      reads this
    {
      RunnerState(lastRemindTime, lastRemindDate, lastTriggerMinute)
    }

    predicate Valid()
      reads this
    {
      Coherent(State())
    }

    /** The loop starts with no sweep remembered and, in the corrected
        loop, no minute triggered yet. */
    constructor ()
      ensures Valid() && State() == Initial
    {
      lastRemindTime, lastRemindDate, lastTriggerMinute := None, None, None;
    }

    /** The reminder half of a pass: reset on a new date, then the sweep
        when due. */
    method Remind(bot: Bot, now: Moment)
      requires Valid()
      modifies this, bot
      ensures Valid()
      ensures State() == RemindState(old(State()), now)
      ensures bot.Snapshot() == RemindWorld(old(State()), old(bot.Snapshot()), now)
    {
      if lastRemindDate.None? || now.date != lastRemindDate.value {
        lastRemindDate := Some(now.date);
        lastRemindTime := None;
      }
      var hour := now.time.hour;
      var interval: Option<nat> := None;
      if 6 <= hour < 17 {
        interval := Some(2 * 60 * 60);
      } else if 17 <= hour < 24 {
        interval := Some(5 * 60);
      }
      if interval.Some? {
        if lastRemindTime.None? || ElapsedMicros(lastRemindTime.value, now) >= interval.value * MicrosPerSecond {
          bot.RemindMissingUrl(now.date);
          lastRemindTime := Some(now);
        }
      }
    }

    /** One pass of the loop as written at clock reading `now`: the
        reminder half, then the trigger pass over every record, unguarded. */
    method PassAsWritten(bot: Bot, now: Moment)
      requires Valid()
      modifies this, bot
      ensures Valid()
      ensures (State(), bot.Snapshot()) == CycleAsWritten(old(State()), old(bot.Snapshot()), now)
    {
      Remind(bot, now);
      FireDue(bot, now);
    }

    /** One pass of the corrected loop at clock reading `now`: the reminder
        half, then the trigger pass only in a minute not yet triggered. */
    method Cycle(bot: Bot, now: Moment)
      requires Valid()
      modifies this, bot
      ensures Valid()
      ensures (State(), bot.Snapshot()) == CycleSpec(old(State()), old(bot.Snapshot()), now)
    {
      Remind(bot, now);
      if lastTriggerMinute != Some((now.date, now.time)) {
        FireDue(bot, now);
      }
      lastTriggerMinute := Some((now.date, now.time));
    }
  }

  /** The trigger pass over the bot's records at clock reading `now`. */
  method FireDue(bot: Bot, now: Moment)
    modifies bot
    ensures bot.Snapshot() == TriggerAll(old(bot.Snapshot()), old(bot.schedules), now)
  {
    ghost var start := bot.Snapshot();
    var i := 0;
    while i < |bot.schedules|
      invariant 0 <= i <= |bot.schedules|
      invariant bot.schedules == start.schedules
      invariant bot.Snapshot() == TriggerAll(start, bot.schedules[..i], now)
    {
      var e := bot.schedules[i];
      assert bot.schedules[..i + 1][..i] == bot.schedules[..i];
      if e.date == now.date && e.time == now.time {
        if e.url == "" {
          bot.outbox := bot.outbox + [TriggerWithoutUrl(e.date, e.time)];
        } else {
          bot.outbox := bot.outbox + [TriggerJoining(e.date, e.time)];
          bot.launched := bot.launched + [UseUrl(e.url)];
        }
      }
      i := i + 1;
    }
    assert bot.schedules[..i] == start.schedules;
  }
}
