/** Worked examples on a November 2025 schedule: what a message or a
    scheduler cycle does to concrete records. */
module Scenarios {
  import opened Wrappers
  import opened Clock
  import opened Schedule
  import opened Notices
  import opened Commands
  import opened Bot
  import opened Join
  import opened Runner

  const Nov16 := Entry(Date(2025, 11, 16), Time(17, 25), "")
  const Nov18 := Entry(Date(2025, 11, 18), Time(17, 25), "")
  const Nov20 := Entry(Date(2025, 11, 20), Time(17, 25), "")
  const Nov27 := Entry(Date(2025, 11, 27), Time(17, 25), "")

  const Link := "https://teams.microsoft.com/l/xyz"

  lemma LinkIsBare()
    ensures StartsWith(Link, TeamsPrefix) && !IsSpace(Link[|Link| - 1])
  {
    assert Link[..|TeamsPrefix|] == TeamsPrefix;
  }

  /** Setting the time of the 16th in November 2025. */
  lemma TimeOfSixteenth(t: Time)
    ensures TimeUpdate(World([Nov16, Nov18], [], []), "16", t, Date(2025, 11, 14))
      == World([Nov16.(time := t), Nov18], [TimeUpdated(Date(2025, 11, 16), t)], [])
  {
    var w := World([Nov16, Nov18], [], []);
    var r := TimeUpdate(w, "16", t, Date(2025, 11, 14));
    assert TargetDate(Date(2025, 11, 14), "16") == Date(2025, 11, 16);
    assert IsFirstWithDate(w.schedules, 0, Date(2025, 11, 16));
    assert r.schedules[0] == Nov16.(time := t) && r.schedules[1] == Nov18;
  }

  /** "16 20:00" in November 2025 moves the meeting of the 16th to 20:00,
      leaves the other record alone and confirms with the full date. */
  lemma SetTimeOfSixteenth()
    ensures var now := Moment(Date(2025, 11, 14), Time(9, 0), 0);
      HandleText(World([Nov16, Nov18], [], []), "16 20:00", now)
      == Some(World([Nov16.(time := Time(20, 0)), Nov18],
                    [TimeUpdated(Date(2025, 11, 16), Time(20, 0))], []))
  {
    var now := Moment(Date(2025, 11, 14), Time(9, 0), 0);
    assert "16 20:00" == "16" + " " + ClockText(Time(20, 0));
    TimeCommandSetsTime(World([Nov16, Nov18], [], []), "16", " ", Time(20, 0), now);
    TimeOfSixteenth(Time(20, 0));
  }

  /** The meeting of the 20th is the next one on the 19th at noon. */
  lemma TwentiethIsNext()
    ensures NearestFuture([Nov18, Nov20, Nov27], Moment(Date(2025, 11, 19), Time(12, 0), 0)) == Nearest(1)
  {
    var now := Moment(Date(2025, 11, 19), Time(12, 0), 0);
    var es := [Nov18, Nov20, Nov27];
    assert IsNearest(es, 1, now);
    NearestUnique(es, 1, NearestFuture(es, now).index, now);
  }

  /** The link update on the 19th at noon goes to the 20th. */
  lemma LinkOnTwentieth(url: string)
    ensures NextUrlUpdate(World([Nov18, Nov20, Nov27], [], []), url, Moment(Date(2025, 11, 19), Time(12, 0), 0))
      == Some(World([Nov18, Nov20.(url := url), Nov27], [NextUrlUpdated(Nov20.date, Nov20.time)], []))
  {
    TwentiethIsNext();
    assert [Nov18, Nov20, Nov27][1 := Nov20.(url := url)] == [Nov18, Nov20.(url := url), Nov27];
  }

  /** A bare link with two meetings ahead goes to the nearer one (the 20th);
      the past meeting and the later one keep their links. */
  lemma BareLinkGoesToNearest()
    ensures var now := Moment(Date(2025, 11, 19), Time(12, 0), 0);
      HandleText(World([Nov18, Nov20, Nov27], [], []), Link, now)
      == Some(World([Nov18, Nov20.(url := Link), Nov27],
                    [NextUrlUpdated(Nov20.date, Nov20.time)], []))
  {
    LinkIsBare();
    BareLinkSetsNextUrl(World([Nov18, Nov20, Nov27], [], []), Link, Moment(Date(2025, 11, 19), Time(12, 0), 0));
    LinkOnTwentieth(Link);
  }

  /** Text that is no command is answered with the help message only. */
  lemma HelloGetsHelp(w: World, now: Moment)
    ensures HandleText(w, "hello", now) == Some(w.(outbox := w.outbox + [HelpText]))
  {
    StripKeepsTrimmed("hello");
    assert !StartsWith("hello", TeamsPrefix);
    assert "hello" !in RetryWords;
    HelpChangesNothing(w, "hello", now);
  }

  /** At 17:25 on the 18th a record without a link is announced as missing
      its link (after the evening's first reminder) and no join starts. */
  lemma TriggerWithoutLink()
    ensures var now := Moment(Date(2025, 11, 18), Time(17, 25), 0);
      CycleSpec(Initial, World([Nov18], [], []), now).1
      == World([Nov18], [UrlMissingToday, TriggerWithoutUrl(Nov18.date, Nov18.time)], [])
  {
    var now := Moment(Date(2025, 11, 18), Time(17, 25), 0);
    var w := World([Nov18], [], []);
    assert [Nov18][..0] == [];
    assert w.schedules[0].date == now.date && w.schedules[0].url == "";
  }

  /** The record of the 16th after "16 25:00". */
  const Broken := World([Nov16.(time := Time(25, 0)), Nov18],
                        [TimeUpdated(Date(2025, 11, 16), Time(25, 0))], [])

  /** The hour and minute of a time command are not range-checked: "16 25:00"
      is accepted and stores a time no parser accepts. */
  lemma UncheckedHourIsStored()
    ensures HandleText(World([Nov16, Nov18], [], []), "16 25:00", Moment(Date(2025, 11, 14), Time(9, 0), 0))
      == Some(Broken)
    ensures !Parses(Broken.schedules[0])
  {
    var now := Moment(Date(2025, 11, 14), Time(9, 0), 0);
    assert "16 25:00" == "16" + " " + ClockText(Time(25, 0));
    TimeCommandSetsTime(World([Nov16, Nov18], [], []), "16", " ", Time(25, 0), now);
    TimeOfSixteenth(Time(25, 0));
  }

  /** From then on a bare link makes the webhook answer with a server error. */
  lemma UncheckedHourBreaksWebhook(now: Moment)
    ensures Webhook(Broken, Some([MessageEvent(Link)]), now) == (Broken, ServerError500)
  {
    assert !Parses(Broken.schedules[0]);
    LinkIsBare();
    BareLinkSetsNextUrl(Broken, Link, now);
  }

  /** And an automatic join without a given link stops before any attempt,
      without a message. */
  lemma UncheckedHourStopsJoin(now: Moment, outcomes: seq<AttemptOutcome>)
    requires |outcomes| >= RetryLimit
    ensures JoinSpec("", Broken.schedules, now, outcomes) == JoinRun("", 0, [])
  {
    assert !Parses(Broken.schedules[0]);
  }
}
