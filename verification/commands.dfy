/** The text commands the LINE webhook understands, and the classifier that
    tries the patterns in their fixed order, the first match winning. */
module Commands {
  import opened Clock
  import opened Schedule

  /** The prefix every accepted meeting link starts with. */
  const TeamsPrefix: string := "https://teams.microsoft.com/"

  /** The five words that ask for an immediate retry of the next meeting. */
  const RetryWords: seq<string> := ["重試", "retry", "再試一次", "再來一次", "重新加入"]

  /** A character Python treats as whitespace (`str.isspace`, and `\s` in a
      text pattern). */
  predicate IsSpace(c: char) {
    || '\t' <= c <= '\r'
    || '\U{1c}' <= c <= ' '
    || c == '\U{85}' || c == '\U{a0}' || c == '\U{1680}'
    || '\U{2000}' <= c <= '\U{200a}'
    || c == '\U{2028}' || c == '\U{2029}' || c == '\U{202f}' || c == '\U{205f}' || c == '\U{3000}'
  }

  predicate AllSpaces(s: string) {
    forall k :: 0 <= k < |s| ==> IsSpace(s[k])
  }

  predicate StartsWith(s: string, prefix: string) {
    |prefix| <= |s| && s[..|prefix|] == prefix
  }

  /** Length of the longest prefix of `s` made of ASCII digits. */
  function DigitRun(s: string): (n: nat)
    ensures n <= |s|
    ensures forall k :: 0 <= k < n ==> IsAsciiDigit(s[k])
    ensures n < |s| ==> !IsAsciiDigit(s[n])
  {
    if s == [] || !IsAsciiDigit(s[0]) then 0 else 1 + DigitRun(s[1..])
  }

  /** Length of the longest prefix of `s` made of whitespace. */
  function SpaceRun(s: string): (n: nat)
    ensures n <= |s|
    ensures AllSpaces(s[..n])
    ensures n < |s| ==> !IsSpace(s[n])
  {
    if s == [] || !IsSpace(s[0]) then 0 else 1 + SpaceRun(s[1..])
  }

  /** Length of the longest suffix of `s` made of whitespace. */
  function TrailingSpaceRun(s: string): (n: nat)
    ensures n <= |s|
    ensures forall k :: |s| - n <= k < |s| ==> IsSpace(s[k])
    ensures n < |s| ==> !IsSpace(s[|s| - n - 1])
  {
    if s == [] || !IsSpace(s[|s| - 1]) then 0 else TrailingSpaceRun(s[..|s| - 1]) + 1
  }

  /** `r` is `s` from position `a` on, with only whitespace around it. */
  predicate IsCore(s: string, a: int, r: string) {
    && 0 <= a <= |s| - |r| && r == s[a..a + |r|]
    && (forall k :: 0 <= k < a ==> IsSpace(s[k]))
    && (forall k :: a + |r| <= k < |s| ==> IsSpace(s[k]))
  }

  /** `str.strip()`: the text without its leading and trailing whitespace. */
  function Strip(s: string): (r: string)
    ensures r == [] || (!IsSpace(r[0]) && !IsSpace(r[|r| - 1]))
    ensures exists a :: IsCore(s, a, r)
  {
    var a := SpaceRun(s);
    var rest := s[a..];
    var b := TrailingSpaceRun(rest);
    var r := rest[..|rest| - b];
    assert forall k :: 0 <= k < a ==> s[..a][k] == s[k];
    assert IsCore(s, a, r);
    r
  }

  /** Text without whitespace at either end is left as it is. */
  lemma StripKeepsTrimmed(s: string)
    requires s == [] || (!IsSpace(s[0]) && !IsSpace(s[|s| - 1]))
    ensures Strip(s) == s
  {
  }

  /** Stripping twice is stripping once. */
  lemma StripIdempotent(s: string)
    ensures Strip(Strip(s)) == Strip(s)
  {
    StripKeepsTrimmed(Strip(s));
  }

  /** "HH:MM" with two ASCII digits on each side; the ranges are not checked. */
  predicate IsClockText(s: string) {
    |s| == 5 && IsAsciiDigit(s[0]) && IsAsciiDigit(s[1]) && s[2] == ':'
    && IsAsciiDigit(s[3]) && IsAsciiDigit(s[4])
  }

  /** Times as a two-digit "HH:MM" can spell them. */
  predicate IsTwoDigitTime(t: Time) {
    0 <= t.hour < 100 && 0 <= t.minute < 100
  }

  function ClockText(t: Time): (s: string)
    requires IsTwoDigitTime(t)
    ensures IsClockText(s)
  {
    Pad2(t.hour) + ":" + Pad2(t.minute)
  }

  /** The time an "HH:MM" text stands for; rendering it gives the text back. */
  function ClockOf(s: string): (t: Time)
    requires IsClockText(s)
    ensures IsTwoDigitTime(t) && ClockText(t) == s
  {
    var h := 10 * DigitValue(s[0]) + DigitValue(s[1]);
    var m := 10 * DigitValue(s[3]) + DigitValue(s[4]);
    PairOfDigits(s[0], s[1]);
    PairOfDigits(s[3], s[4]);
    assert s == [s[0], s[1]] + ":" + [s[3], s[4]];
    Time(h, m)
  }

  /** Two digits read as a number render back as those two digits. */
  lemma PairOfDigits(a: char, b: char)
    requires IsAsciiDigit(a) && IsAsciiDigit(b)
    ensures Pad2(10 * DigitValue(a) + DigitValue(b)) == [a, b]
  {
    var n := 10 * DigitValue(a) + DigitValue(b);
    assert n / 10 == DigitValue(a) && n % 10 == DigitValue(b);
    DigitRoundTrip(a);
    DigitRoundTrip(b);
  }

  lemma ClockRoundTrip(t: Time)
    requires IsTwoDigitTime(t)
    ensures ClockOf(ClockText(t)) == t
  {
    var t' := ClockOf(ClockText(t));
    Pad2Injective(t.hour, t'.hour);
    Pad2Injective(t.minute, t'.minute);
    assert ClockText(t')[..2] == Pad2(t'.hour) && ClockText(t)[..2] == Pad2(t.hour);
    assert ClockText(t')[3..] == Pad2(t'.minute) && ClockText(t)[3..] == Pad2(t.minute);
  }

  /** `https://teams\.microsoft\.com/\S+` matched to the end of the text. */
  predicate IsTeamsLink(s: string) {
    |s| > |TeamsPrefix| && StartsWith(s, TeamsPrefix)
    && forall k :: |TeamsPrefix| <= k < |s| ==> !IsSpace(s[k])
  }

  /** `text.lower().startswith("http")`. */
  predicate StartsWithHttpAnyCase(text: string) {
    |text| >= 4
    && (text[0] == 'h' || text[0] == 'H') && (text[1] == 't' || text[1] == 'T')
    && (text[2] == 't' || text[2] == 'T') && (text[3] == 'p' || text[3] == 'P')
  }

  /** A classified command line. */
  datatype Command =
    | SetTime(day: string, time: Time)   // "DD HH:MM"
    | SetUrl(day: string, url: string)   // "DD https://teams.microsoft.com/..."
    | SetNextUrl(url: string)            // a bare Teams link
    | Retry                              // one of the retry words
    | Help                               // anything else

  /** `text` is `day`, then whitespace, then `tail`, the whole of it. */
  predicate DayThen(text: string, day: string, tail: string) {
    |text| > |day| + |tail| && text[..|day|] == day && text[|text| - |tail|..] == tail
    && AllSpaces(text[|day|..|text| - |tail|])
  }

  /** The retry words have no whitespace around them, so stripping keeps
      them as they are. */
  lemma RetryWordsTrimmed(word: string)
    requires word in RetryWords
    ensures Strip(word) == word
  {
    if word == RetryWords[0] {
      StripKeepsTrimmed(RetryWords[0]);
    } else if word == RetryWords[1] {
      StripKeepsTrimmed(RetryWords[1]);
    } else if word == RetryWords[2] {
      StripKeepsTrimmed(RetryWords[2]);
    } else if word == RetryWords[3] {
      StripKeepsTrimmed(RetryWords[3]);
    } else {
      assert word == RetryWords[4];
      StripKeepsTrimmed(RetryWords[4]);
    }
  }

  /** No retry word begins with a digit or with the Teams prefix, so the
      retry branch is reached for exactly the retry words. */
  lemma RetryWordsStandApart(text: string)
    ensures text in RetryWords ==> DigitRun(text) == 0 && !StartsWith(text, TeamsPrefix)
  {
    if text in RetryWords {
      assert text == RetryWords[0] || text == RetryWords[1] || text == RetryWords[2]
          || text == RetryWords[3] || text == RetryWords[4];
      assert !IsAsciiDigit(text[0]) && text[0] != 'h';
      assert TeamsPrefix[0] == 'h';
    }
  }

  /** The split a day pattern makes: the digits, the whitespace run after
      them, and the remaining tail. */
  lemma DaySplit(text: string, n: nat, w: nat)
    requires n + w <= |text| && 1 <= n <= 2 && w >= 1
    requires forall k :: 0 <= k < n ==> IsAsciiDigit(text[k])
    requires AllSpaces(text[n..][..w])
    ensures IsDayString(text[..n]) && |text[n + w..]| < |text| - n
    ensures text[..|text[..n]|] == text[..n] && text[|text| - |text[n + w..]|..] == text[n + w..]
    ensures AllSpaces(text[|text[..n]|..|text| - |text[n + w..]|])
  {
    assert text[n..|text| - |text[n + w..]|] == text[n..][..w];
  }

  /** Classifies one stripped message text, trying the patterns in order:
      `^(\d{1,2})\s+(\d{2}:\d{2})$` (and not starting with "http"),
      `^(\d{1,2})\s+(https://teams\.microsoft\.com/\S+)$`, the Teams prefix,
      the retry words, and otherwise help. A leading run of digits followed
      by whitespace is how either day pattern must begin: `\d{1,2}` cannot
      stop inside a run of digits because `\s` must follow, and `\s+` must
      take the whole run of whitespace because both tails begin with a
      non-space. */
  function Classify(text: string): (c: Command)
    ensures c.SetTime? ==>
      IsDayString(c.day) && IsTwoDigitTime(c.time) && DayThen(text, c.day, ClockText(c.time))
    ensures c.SetUrl? ==> IsDayString(c.day) && IsTeamsLink(c.url) && DayThen(text, c.day, c.url)
    ensures c.SetNextUrl? ==> c.url == text && StartsWith(text, TeamsPrefix)
    ensures c.Retry? <==> text in RetryWords
    ensures c.Help? ==> !StartsWith(text, TeamsPrefix) && text !in RetryWords
  {
    RetryWordsStandApart(text);
    var n := DigitRun(text);
    var w := SpaceRun(text[n..]);
    var tail := text[n + w..];
    if 1 <= n <= 2 && w >= 1 && IsClockText(tail) && !StartsWithHttpAnyCase(text) then
      DaySplit(text, n, w);
      SetTime(text[..n], ClockOf(tail))
    else if 1 <= n <= 2 && w >= 1 && IsTeamsLink(tail) then
      DaySplit(text, n, w);
      SetUrl(text[..n], tail)
    else if StartsWith(text, TeamsPrefix) then
      SetNextUrl(text)
    else if text in RetryWords then
      Retry
    else
      Help
  }

  /** A text that starts with a day number never starts with "http", so the
      extra guard on the time pattern never changes the outcome. */
  lemma HttpGuardIsRedundant(text: string, day: string, tail: string)
    requires IsDayString(day) && DayThen(text, day, tail)
    ensures !StartsWithHttpAnyCase(text)
  {
    assert text[0] == day[0];
  }

  /** How the classifier splits `day + spaces + tail` when the tail begins
      with a non-space. */
  lemma {:induction false} SplitOfDayCommand(day: string, spaces: string, tail: string)
    requires IsDayString(day) && |spaces| >= 1 && AllSpaces(spaces)
    requires tail != [] && !IsSpace(tail[0])
    ensures var text := day + spaces + tail;
      DigitRun(text) == |day| && SpaceRun(text[|day|..]) == |spaces|
      && text[|day| + |spaces|..] == tail && text[..|day|] == day
  {
    var text := day + spaces + tail;
    var n := DigitRun(text);
    assert text[|day|] == spaces[0];
    assert forall k :: 0 <= k < |day| ==> text[k] == day[k];
    var rest := text[|day|..];
    assert rest == spaces + tail;
    var w := SpaceRun(rest);
    assert forall k :: 0 <= k < |spaces| ==> rest[k] == spaces[k];
    assert |spaces| < |rest| && rest[|spaces|] == tail[0];
    assert text[|day| + |spaces|..] == tail;
  }

  /** Every "DD HH:MM" line, whatever whitespace separates the two parts, is
      a time command for exactly that day string and time. */
  lemma {:induction false} ClassifiesTimeCommand(day: string, spaces: string, t: Time)
    requires IsDayString(day) && |spaces| >= 1 && AllSpaces(spaces) && IsTwoDigitTime(t)
    ensures Classify(day + spaces + ClockText(t)) == SetTime(day, t)
  {
    var tail := ClockText(t);
    assert !IsSpace(tail[0]);
    SplitOfDayCommand(day, spaces, tail);
    HttpGuardIsRedundant(day + spaces + tail, day, tail) by {
      var text := day + spaces + tail;
      assert text[|text| - |tail|..] == tail;
      assert text[|day|..|text| - |tail|] == spaces;
    }
    ClockRoundTrip(t);
  }

  /** Every "DD <Teams link>" line is a link command for that day and link. */
  lemma {:induction false} ClassifiesDayUrlCommand(day: string, spaces: string, url: string)
    requires IsDayString(day) && |spaces| >= 1 && AllSpaces(spaces) && IsTeamsLink(url)
    ensures Classify(day + spaces + url) == SetUrl(day, url)
  {
    assert url[0] == TeamsPrefix[0] == 'h';
    SplitOfDayCommand(day, spaces, url);
    assert !IsClockText(url);
  }

  /** Every text that starts with the Teams prefix and is not a day command
      sets the next meeting's link to the whole text. */
  lemma ClassifiesBareLink(text: string)
    requires StartsWith(text, TeamsPrefix)
    ensures Classify(text) == SetNextUrl(text)
  {
    assert text[0] == TeamsPrefix[0] == 'h';
  }
}
