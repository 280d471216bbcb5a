/** The schedule store and the LINE webhook: the list of schedule records
    that the commands change in place, the messages pushed so far and the
    join runs started so far. */
module Bot {
  import opened Wrappers
  import opened Clock
  import opened Schedule
  import opened Notices
  import opened Commands

  /** Everything the handlers change: the schedule records, the messages
      pushed to the user (in order) and the join runs started (in order). */
  datatype World = World(schedules: seq<Entry>, outbox: seq<Notice>, launched: seq<JoinRequest>)

  /** "DD HH:MM": the first record dated day DD of today's month gets the new
      time and nothing else changes; without such a record only a "not
      found" message goes out. */
  function TimeUpdate(w: World, dayStr: string, t: Time, today: Date): (r: World)
    requires IsDayString(dayStr)
    ensures r.launched == w.launched && |r.schedules| == |w.schedules|
    ensures forall k :: 0 <= k < |w.schedules| ==>
      r.schedules[k] == if IsFirstWithDate(w.schedules, k, TargetDate(today, dayStr))
                        then w.schedules[k].(time := t) else w.schedules[k]
    ensures r.outbox == w.outbox + [if HasDate(w.schedules, TargetDate(today, dayStr))
                                    then TimeUpdated(TargetDate(today, dayStr), t)
                                    else DayNotFound(TargetDate(today, dayStr))]
  {
    var d := TargetDate(today, dayStr);
    match FindDate(w.schedules, d)
    case None => w.(outbox := w.outbox + [DayNotFound(d)])
    case Some(i) =>
      w.(schedules := w.schedules[i := w.schedules[i].(time := t)], outbox := w.outbox + [TimeUpdated(d, t)])
  }

  /** "DD <link>": the same lookup, with the link as the only field changed. */
  function UrlUpdate(w: World, dayStr: string, url: string, today: Date): (r: World)
    requires IsDayString(dayStr)
    ensures r.launched == w.launched && |r.schedules| == |w.schedules|
    ensures forall k :: 0 <= k < |w.schedules| ==>
      r.schedules[k] == if IsFirstWithDate(w.schedules, k, TargetDate(today, dayStr))
                        then w.schedules[k].(url := url) else w.schedules[k]
    ensures r.outbox == w.outbox + [if HasDate(w.schedules, TargetDate(today, dayStr))
                                    then UrlUpdated(TargetDate(today, dayStr))
                                    else DayNotFound(TargetDate(today, dayStr))]
  {
    var d := TargetDate(today, dayStr);
    match FindDate(w.schedules, d)
    case None => w.(outbox := w.outbox + [DayNotFound(d)])
    case Some(i) =>
      w.(schedules := w.schedules[i := w.schedules[i].(url := url)], outbox := w.outbox + [UrlUpdated(d)])
  }

  /** A bare link: the nearest record at or after now gets the link. `None`
      when a record's date or time does not parse (the handler raises before
      changing or sending anything). */
  function NextUrlUpdate(w: World, url: string, now: Moment): (r: Option<World>)
    ensures r.None? <==> exists k :: 0 <= k < |w.schedules| && !Parses(w.schedules[k])
    ensures r.Some? ==> r.value.launched == w.launched && |r.value.schedules| == |w.schedules|
    ensures r.Some? ==> forall k :: 0 <= k < |w.schedules| ==>
      r.value.schedules[k] == if IsNearest(w.schedules, k, now)
                              then w.schedules[k].(url := url) else w.schedules[k]
    ensures r.Some? ==> |r.value.outbox| == |w.outbox| + 1 && r.value.outbox[..|w.outbox|] == w.outbox
    ensures r.Some? ==> (r.value.outbox[|w.outbox|] == NoFutureForUrl
                         <==> forall k :: 0 <= k < |w.schedules| ==> !IsFuture(w.schedules[k], now))
    ensures r.Some? ==> forall k :: IsNearest(w.schedules, k, now) ==>
      r.value.outbox[|w.outbox|] == NextUrlUpdated(w.schedules[k].date, w.schedules[k].time)
  {
    match NearestFuture(w.schedules, now)
    case Unparsable => None
    case NoFuture => Some(w.(outbox := w.outbox + [NoFutureForUrl]))
    case Nearest(i) =>
      var e := w.schedules[i];
      assert forall k :: IsNearest(w.schedules, k, now) ==> k == i by {
        forall k | IsNearest(w.schedules, k, now) ensures k == i {
          NearestUnique(w.schedules, k, i, now);
        }
      }
      Some(w.(schedules := w.schedules[i := e.(url := url)], outbox := w.outbox + [NextUrlUpdated(e.date, e.time)]))
  }

  /** The reminder: one warning if some record dated today has no link. */
  function MissingUrlReminder(w: World, today: Date): (r: World)
    ensures r.schedules == w.schedules && r.launched == w.launched
    ensures r.outbox == w.outbox + (if HasMissingUrl(w.schedules, today) then [UrlMissingToday] else [])
  {
    if HasMissingUrl(w.schedules, today) then w.(outbox := w.outbox + [UrlMissingToday]) else w
  }

  /** What one message text does to the world; `None` when its handler
      raises. Every message is answered with exactly one pushed message,
      unless its handler raises, which only a next-link command over a record
      that does not parse can cause. */
  function HandleText(w: World, raw: string, now: Moment): (r: Option<World>)
    ensures r.None? <==> Classify(Strip(raw)).SetNextUrl?
                         && exists k :: 0 <= k < |w.schedules| && !Parses(w.schedules[k])
    ensures r.Some? ==> Replied(w, r.value)
  {
    match Classify(Strip(raw))
    case SetTime(day, t) =>
      TimeUpdateReplies(w, day, t, now.date);
      Some(TimeUpdate(w, day, t, now.date))
    case SetUrl(day, url) =>
      UrlUpdateReplies(w, day, url, now.date);
      Some(UrlUpdate(w, day, url, now.date))
    case SetNextUrl(url) =>
      NextUrlUpdateReplies(w, url, now);
      NextUrlUpdate(w, url, now)
    case Retry =>
      assert (w.outbox + [RetryStarting])[..|w.outbox|] == w.outbox;
      assert (w.launched + [UseNextSchedule])[..|w.launched|] == w.launched;
      Some(w.(outbox := w.outbox + [RetryStarting], launched := w.launched + [UseNextSchedule]))
    case Help =>
      assert (w.outbox + [HelpText])[..|w.outbox|] == w.outbox;
      Some(w.(outbox := w.outbox + [HelpText]))
  }

  /** One webhook event: a text message, or any other kind (skipped). A
      message without text counts as the empty text. */
  datatype Event = MessageEvent(text: string) | OtherEvent

  /** HTTP status the webhook answers with. */
  datatype Status = Ok200 | BadRequest400 | ServerError500

  /** The events handled in order; a raising handler stops the request with
      a server error, keeping what the earlier events did. Such a request
      never answers 400; when it completes it has pushed one message per text
      message; a server error leaves a record that does not parse; records
      keep their dates. */
  function ProcessEvents(w: World, events: seq<Event>, now: Moment): (r: (World, Status))
    ensures RequestEffect(w, events, r.0, r.1)
    decreases |events|
  {
    if events == [] then (w, Ok200)
    else match events[0]
      case OtherEvent => ProcessEvents(w, events[1..], now)
      case MessageEvent(text) =>
        match HandleText(w, text, now)
        case None => (w, ServerError500)
        case Some(w1) =>
          var r := ProcessEvents(w1, events[1..], now);
          ReplyThenRest(w, w1, events, r.0, r.1);
          r
  }

  /** The whole request; `None` stands for a payload without "events". It is
      refused with a client error exactly when the payload has no events,
      and then nothing changes. */
  function Webhook(w: World, payload: Option<seq<Event>>, now: Moment): (r: (World, Status))
    ensures r.1 == BadRequest400 <==> payload.None?
    ensures payload.None? ==> r.0 == w
    ensures payload.Some? ==> RequestEffect(w, payload.value, r.0, r.1)
  {
    if payload.None? then (w, BadRequest400) else ProcessEvents(w, payload.value, now)
  }

  function MessageCount(events: seq<Event>): nat {
    if events == [] then 0 else (if events[0].MessageEvent? then 1 else 0) + MessageCount(events[1..])
  }

  /** Records keep their positions and dates: they are never added, removed
      or re-dated, only their times and links change. */
  predicate SameDates(a: seq<Entry>, b: seq<Entry>) {
    |a| == |b| && forall k :: 0 <= k < |a| ==> a[k].date == b[k].date
  }

  /** `after` answers one message sent in `before`: one more message pushed
      after the earlier ones, at most one more join started, and the
      records kept in place with their dates. */
  predicate Replied(before: World, after: World) {
    && |after.outbox| == |before.outbox| + 1 && after.outbox[..|before.outbox|] == before.outbox
    && |before.launched| <= |after.launched| <= |before.launched| + 1 && after.launched[..|before.launched|] == before.launched
    && SameDates(before.schedules, after.schedules)
  }

  lemma TimeUpdateReplies(w: World, dayStr: string, t: Time, today: Date)
    requires IsDayString(dayStr)
    ensures Replied(w, TimeUpdate(w, dayStr, t, today))
  {
    var r := TimeUpdate(w, dayStr, t, today);
    assert r.outbox[..|w.outbox|] == w.outbox;
  }

  lemma UrlUpdateReplies(w: World, dayStr: string, url: string, today: Date)
    requires IsDayString(dayStr)
    ensures Replied(w, UrlUpdate(w, dayStr, url, today))
  {
    var r := UrlUpdate(w, dayStr, url, today);
    assert r.outbox[..|w.outbox|] == w.outbox;
  }

  lemma NextUrlUpdateReplies(w: World, url: string, now: Moment)
    ensures NextUrlUpdate(w, url, now).Some? ==> Replied(w, NextUrlUpdate(w, url, now).value)
  {
  }

  /** What a request that got past the payload check did, going from `w`
      to `w'` with the given status over `events`. */
  predicate RequestEffect(w: World, events: seq<Event>, w': World, status: Status) {
    && status != BadRequest400
    && (status == Ok200 ==> |w'.outbox| == |w.outbox| + MessageCount(events))
    && (status == ServerError500 ==> exists k :: 0 <= k < |w'.schedules| && !Parses(w'.schedules[k]))
    && |w.outbox| <= |w'.outbox| && w'.outbox[..|w.outbox|] == w.outbox
    && SameDates(w.schedules, w'.schedules)
  }

  /** A reply to the first message followed by the effect of the rest is
      the effect of the whole. */
  lemma ReplyThenRest(w: World, w1: World, events: seq<Event>, w': World, status: Status)
    requires events != [] && events[0].MessageEvent?
    requires Replied(w, w1) && RequestEffect(w1, events[1..], w', status)
    ensures RequestEffect(w, events, w', status)
  {
    assert w'.outbox[..|w.outbox|] == w'.outbox[..|w1.outbox|][..|w.outbox|];
  }

  /** A time command, whatever whitespace separates day and time, sets the
      time of that day's record. */
  lemma TimeCommandSetsTime(w: World, day: string, spaces: string, t: Time, now: Moment)
    requires IsDayString(day) && |spaces| >= 1 && AllSpaces(spaces) && IsTwoDigitTime(t)
    ensures HandleText(w, day + spaces + ClockText(t), now) == Some(TimeUpdate(w, day, t, now.date))
  {
    var text := day + spaces + ClockText(t);
    assert text[0] == day[0] && text[|text| - 1] == ClockText(t)[4];
    StripKeepsTrimmed(text);
    ClassifiesTimeCommand(day, spaces, t);
  }

  /** A day number, whitespace and a meeting link set that day's link. */
  lemma DayLinkSetsUrl(w: World, day: string, spaces: string, url: string, now: Moment)
    requires IsDayString(day) && |spaces| >= 1 && AllSpaces(spaces) && IsTeamsLink(url)
    ensures HandleText(w, day + spaces + url, now) == Some(UrlUpdate(w, day, url, now.date))
  {
    var text := day + spaces + url;
    assert text[0] == day[0] && text[|text| - 1] == url[|url| - 1];
    StripKeepsTrimmed(text);
    ClassifiesDayUrlCommand(day, spaces, url);
  }

  /** A retry word announces the retry and starts a join of the next
      meeting, and changes no record. */
  lemma RetryWordStartsJoin(w: World, word: string, now: Moment)
    requires word in RetryWords
    ensures HandleText(w, word, now)
      == Some(w.(outbox := w.outbox + [RetryStarting], launched := w.launched + [UseNextSchedule]))
  {
    RetryWordsTrimmed(word);
  }

  /** A bare meeting link sets the link of the next meeting. */
  lemma BareLinkSetsNextUrl(w: World, link: string, now: Moment)
    requires StartsWith(link, TeamsPrefix) && !IsSpace(link[|link| - 1])
    ensures HandleText(w, link, now) == NextUrlUpdate(w, link, now)
  {
    assert link[0] == TeamsPrefix[0];
    StripKeepsTrimmed(link);
    ClassifiesBareLink(link);
  }

  /** Text that is not a command is answered with the help message and
      changes nothing else. */
  lemma HelpChangesNothing(w: World, raw: string, now: Moment)
    requires Classify(Strip(raw)).Help?
    ensures HandleText(w, raw, now) == Some(w.(outbox := w.outbox + [HelpText]))
  {
  }

  /** The process state: the schedule list and the two logs, updated in place. */
  class Bot {
    var schedules: seq<Entry>
    var outbox: seq<Notice>
    var launched: seq<JoinRequest>

    function Snapshot(): World
      reads this
    {
      World(schedules, outbox, launched)
    }

    /** The bot starts from the configured records, before anything is sent. */
    constructor (config: seq<Entry>)
      ensures Snapshot() == World(config, [], [])
    {
      schedules, outbox, launched := config, [], [];
    }

    method UpdateScheduleTimeByDay(dayStr: string, newTime: Time, now: Moment)
      requires IsDayString(dayStr)
      modifies this
      ensures Snapshot() == TimeUpdate(old(Snapshot()), dayStr, newTime, now.date)
    {
      var target := TargetDate(now.date, dayStr);
      var found := false;
      var i := 0;
      while i < |schedules|
        invariant 0 <= i <= |schedules|
        invariant schedules == old(schedules)
        invariant forall k :: 0 <= k < i ==> schedules[k].date != target
      {
        if schedules[i].date == target {
          assert FindDate(schedules, target) == Some(i);
          schedules := schedules[i := schedules[i].(time := newTime)];
          found := true;
          break;
        }
        i := i + 1;
      }
      if found {
        outbox := outbox + [TimeUpdated(target, newTime)];
      } else {
        outbox := outbox + [DayNotFound(target)];
      }
    }

    method UpdateScheduleUrlByDay(dayStr: string, url: string, now: Moment)
      requires IsDayString(dayStr)
      modifies this
      ensures Snapshot() == UrlUpdate(old(Snapshot()), dayStr, url, now.date)
    {
      var target := TargetDate(now.date, dayStr);
      var found := false;
      var i := 0;
      while i < |schedules|
        invariant 0 <= i <= |schedules|
        invariant schedules == old(schedules)
        invariant forall k :: 0 <= k < i ==> schedules[k].date != target
      {
        if schedules[i].date == target {
          assert FindDate(schedules, target) == Some(i);
          schedules := schedules[i := schedules[i].(url := url)];
          found := true;
          break;
        }
        i := i + 1;
      }
      if found {
        outbox := outbox + [UrlUpdated(target)];
      } else {
        outbox := outbox + [DayNotFound(target)];
      }
    }

    /** Returns false when the lookup raises (a record that does not parse). */
    method UpdateNextScheduleUrl(url: string, now: Moment) returns (ok: bool)
      modifies this
      ensures ok == NextUrlUpdate(old(Snapshot()), url, now).Some?
      ensures Snapshot() == if ok then NextUrlUpdate(old(Snapshot()), url, now).value else old(Snapshot())
    {
      match NearestFuture(schedules, now)
      case Unparsable =>
        ok := false;
      case NoFuture =>
        ok := true;
        outbox := outbox + [NoFutureForUrl];
      case Nearest(i) =>
        ok := true;
        var nearest := schedules[i];
        schedules := schedules[i := nearest.(url := url)];
        outbox := outbox + [NextUrlUpdated(nearest.date, nearest.time)];
    }

    method RemindMissingUrl(today: Date)
      modifies this
      ensures Snapshot() == MissingUrlReminder(old(Snapshot()), today)
    {
      var i := 0;
      while i < |schedules|
        invariant 0 <= i <= |schedules|
        invariant !HasMissingUrl(schedules[..i], today)
      {
        if schedules[i].date == today && schedules[i].url == "" {
          outbox := outbox + [UrlMissingToday];
          return;
        }
        assert schedules[..i + 1] == schedules[..i] + [schedules[i]];
        i := i + 1;
      }
      assert schedules[..i] == schedules;
    }

    /** One text message. Returns false when its handler raises. */
    method HandleMessage(raw: string, now: Moment) returns (ok: bool)
      modifies this
      ensures ok == HandleText(old(Snapshot()), raw, now).Some?
      ensures Snapshot() == if ok then HandleText(old(Snapshot()), raw, now).value else old(Snapshot())
    {
      var text := Strip(raw);
      ok := true;
      match Classify(text)
      case SetTime(day, t) =>
        UpdateScheduleTimeByDay(day, t, now);
      case SetUrl(day, url) =>
        UpdateScheduleUrlByDay(day, url, now);
      case SetNextUrl(url) =>
        ok := UpdateNextScheduleUrl(url, now);
      case Retry =>
        outbox := outbox + [RetryStarting];
        launched := launched + [UseNextSchedule];
      case Help =>
        outbox := outbox + [HelpText];
    }

    /** The webhook endpoint. */
    method HandleWebhook(payload: Option<seq<Event>>, now: Moment) returns (status: Status)
      modifies this
      ensures (Snapshot(), status) == Webhook(old(Snapshot()), payload, now)
    {
      if payload.None? {
        return BadRequest400;
      }
      var events := payload.value;
      var i := 0;
      while i < |events|
        invariant 0 <= i <= |events|
        invariant ProcessEvents(old(Snapshot()), events, now) == ProcessEvents(Snapshot(), events[i..], now)
      {
        assert events[i..][1..] == events[i + 1..];
        match events[i] {
          case OtherEvent =>
          case MessageEvent(text) =>
            var ok := HandleMessage(text, now);
            if !ok {
              return ServerError500;
            }
        }
        i := i + 1;
      }
      return Ok200;
    }
  }
}
