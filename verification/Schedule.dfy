/** Day lists, times of day and daily windows, as the controller reads them from its settings. */
module Schedule {
  import opened Options

  predicate IsDigit(c: char) { '0' <= c <= '9' }

  function Value(c: char): (v: nat)
    requires IsDigit(c)
    ensures v < 10
  {
    c as nat - '0' as nat
  }

  function Digit(v: nat): (c: char)
    requires v < 10
    ensures IsDigit(c) && Value(c) == v
  {
    ('0' as nat + v) as char
  }

  // ---- The C library's number reading ----

  /** isspace() of the C locale. */
  predicate IsSpace(c: char) { c == ' ' || 9 <= c as int <= 13 }

  function TrimLeft(s: string): string {
    if s != "" && IsSpace(s[0]) then TrimLeft(s[1..]) else s
  }

  function TrimRight(s: string): string {
    if s != "" && IsSpace(s[|s| - 1]) then TrimRight(s[..|s| - 1]) else s
  }

  function Trim(s: string): string { TrimRight(TrimLeft(s)) }

  /** Value of the leading digits of `s`, with `acc` read before them. */
  function LeadingDigits(s: string, acc: nat): nat {
    if s != "" && IsDigit(s[0]) then LeadingDigits(s[1..], 10 * acc + Value(s[0])) else acc
  }

  function ToInt(s: string): int {
    var t := TrimLeft(s);
    if t != "" && t[0] == '-' then -(LeadingDigits(t[1..], 0) as int)
    else if t != "" && t[0] == '+' then LeadingDigits(t[1..], 0)
    else LeadingDigits(t, 0)
  }

  /** First position of `c` at or after `from`, or |s|. */
  function Find(s: string, c: char, from: nat): (i: nat)
    requires from <= |s|
    ensures from <= i <= |s|
    ensures i < |s| ==> s[i] == c
    ensures forall j :: from <= j < i ==> s[j] != c
    decreases |s| - from
  {
    if from == |s| || s[from] == c then from else Find(s, c, from + 1)
  }

  // ---- Day lists ----

  predicate IsDay(c: char) { '1' <= c <= '7' }

  function JoinDays(ds: seq<nat>): string
    requires AllDays(ds)
  {
    if ds == [] then ""
    else if |ds| == 1 then [Digit(ds[0])]
    else [Digit(ds[0]), ','] + JoinDays(ds[1..])
  }

  predicate AllDays(ds: seq<nat>) { forall i :: 0 <= i < |ds| ==> 1 <= ds[i] <= 7 }

  /** The empty text, or the days `ds` separated by commas. */
  ghost predicate DayList(value: string) {
    exists ds: seq<nat> :: AllDays(ds) && value == JoinDays(ds)
  }

  /** Days at the even positions, commas between them. */
  predicate Alternates(value: string) {
    && (forall i :: 0 <= i < |value| && i % 2 == 0 ==> IsDay(value[i]))
    && (forall i :: 0 <= i < |value| && i % 2 == 1 ==> value[i] == ',')
  }

  lemma {:induction false} JoinAlternates(ds: seq<nat>)
    requires AllDays(ds)
    ensures Alternates(JoinDays(ds)) && (ds == [] || |JoinDays(ds)| == 2 * |ds| - 1)
  {
    if |ds| > 1 {
      JoinAlternates(ds[1..]);
      var s, rest := JoinDays(ds), JoinDays(ds[1..]);
      forall i | 2 <= i < |s| ensures s[i] == rest[i - 2] {}
    }
  }

  lemma {:induction false} AlternatesIsDayList(value: string) returns (ds: seq<nat>)
    requires Alternates(value) && (value == "" || |value| % 2 == 1)
    ensures AllDays(ds) && value == JoinDays(ds)
  {
    if value == "" {
      ds := [];
    } else if |value| == 1 {
      ds := [Value(value[0])];
    } else {
      var rest := AlternatesIsDayList(value[2..]);
      ds := [Value(value[0])] + rest;
      assert ds[1..] == rest && rest != [];
      assert value == [value[0], value[1]] + value[2..];
    }
  }

  /** The controller's check of a day list: exactly "" and comma-separated days pass. */
  method IsValidDays(value: string) returns (ok: bool)
    ensures ok <==> DayList(value)
  {
    var expectDigit := true;
    for i := 0 to |value|
      invariant expectDigit <==> i % 2 == 0
      invariant Alternates(value[..i])
    {
      var c := value[i];
      if (expectDigit && !IsDay(c)) || (!expectDigit && c != ',') {
        NotDayList(value, i);
        return false;
      }
      expectDigit := !expectDigit;
    }
    assert value[..|value|] == value;
    ok := |value| == 0 || !expectDigit;
    if ok {
      var ds := AlternatesIsDayList(value);
    } else {
      forall ds: seq<nat> | AllDays(ds) ensures value != JoinDays(ds) { JoinAlternates(ds); }
    }
  }

  lemma NotDayList(value: string, i: nat)
    requires i < |value| && (if i % 2 == 0 then !IsDay(value[i]) else value[i] != ',')
    ensures !DayList(value)
  {
    forall ds: seq<nat> | AllDays(ds) ensures value != JoinDays(ds) { JoinAlternates(ds); }
  }

  /** The parts of `s` between commas. */
  function Split(s: string): (parts: seq<string>)
    ensures |parts| >= 1
    decreases |s|
  {
    var comma := Find(s, ',', 0);
    if comma == |s| then [s] else [s[..comma]] + Split(s[comma + 1..])
  }

  /** Some part of the list reads as day `dow`. */
  predicate Listed(days: string, dow: int) {
    exists i :: 0 <= i < |Split(days)| && ToInt(Trim(Split(days)[i])) == dow
  }

  lemma ListedStep(s: string, dow: int)
    ensures var comma := Find(s, ',', 0);
            Listed(s, dow) <==> ToInt(Trim(s[..comma])) == dow || (comma < |s| && Listed(s[comma + 1..], dow))
  {
    var comma := Find(s, ',', 0);
    if comma < |s| {
      var parts, rest := Split(s), Split(s[comma + 1..]);
      assert parts[0] == s[..comma] && parts[1..] == rest;
      if Listed(s[comma + 1..], dow) {
        var i :| 0 <= i < |rest| && ToInt(Trim(rest[i])) == dow;
        assert parts[i + 1] == rest[i];
      }
    } else {
      assert Split(s)[0] == s == s[..comma];
    }
  }

  lemma FindShift(s: string, from: nat)
    requires from <= |s|
    ensures Find(s, ',', from) == from + Find(s[from..], ',', 0)
  {
    var t := s[from..];
    var i, j := Find(s, ',', from), Find(t, ',', 0);
    assert i < |s| ==> t[i - from] == ',';
    assert j < |t| ==> s[from + j] == ',';
  }

  /** The controller's tokenizer: does the day list name day `dow`? */
  method DayMatches(days: string, dow: int) returns (dayMatch: bool)
    requires 1 <= dow <= 7
    ensures dayMatch <==> Listed(days, dow)
  {
    dayMatch := false;
    var idx := 0;
    assert days[0..] == days;
    while idx < |days|
      invariant idx <= |days|
      invariant !dayMatch && (Listed(days, dow) <==> Listed(days[idx..], dow))
      decreases |days| - idx
    {
      var comma := Find(days, ',', idx);
      FindShift(days, idx);
      ListedStep(days[idx..], dow);
      var token := days[idx..comma];
      assert token == days[idx..][..comma - idx];
      if ToInt(Trim(token)) == dow {
        return true;
      }
      if comma == |days| {
        return false;
      }
      assert days[idx..][comma - idx + 1..] == days[comma + 1..];
      idx := comma + 1;
    }
    ListedStep(days[idx..], dow);
    assert days[idx..] == "";
  }

  lemma SplitJoined(ds: seq<nat>, d: nat)
    requires AllDays(ds) && ds != []
    ensures Find(JoinDays(ds), ',', 0) == 1
    ensures ToInt(Trim(JoinDays(ds)[..1])) == ds[0]
  {
    var s := JoinDays(ds);
    assert s[0] == Digit(ds[0]) && s[0] != ',';
    var t := s[..1];
    assert t == [Digit(ds[0])];
    assert t[1..] == "";
    assert LeadingDigits(t, 0) == LeadingDigits(t[1..], ds[0]) == ds[0];
  }

  /** On an accepted list the tokenizer finds exactly the listed days. */
  lemma {:induction false} ListedIffInList(ds: seq<nat>, d: nat)
    requires AllDays(ds) && 1 <= d <= 7
    ensures Listed(JoinDays(ds), d) <==> d in ds
  {
    var s := JoinDays(ds);
    ListedStep(s, d);
    if ds != [] {
      SplitJoined(ds, d);
      if |ds| > 1 {
        assert s[2..] == JoinDays(ds[1..]);
        ListedIffInList(ds[1..], d);
        assert ds == [ds[0]] + ds[1..];
      } else {
        assert ds == [ds[0]];
      }
    }
  }

  // ---- Daily windows ----

  const DAY := 1440

  predicate InWindow(minute: nat, start: nat, end: int) {
    if start <= end then start <= minute < end else minute >= start || minute < end
  }

  /** How many of the first `n` minutes of a day lie in the window. */
  function MinutesIn(start: nat, end: nat, n: nat): nat {
    if n == 0 then 0 else MinutesIn(start, end, n - 1) + if InWindow(n - 1, start, end) then 1 else 0
  }

  function Least(a: nat, b: nat): nat { if a < b then a else b }

  lemma {:induction false} CountMinutes(start: nat, end: nat, n: nat)
    ensures MinutesIn(start, end, n)
            == if start <= end then Least(n, end) - Least(n, start) else Least(n, end) + n - Least(n, start)
  {
    if n > 0 { CountMinutes(start, end, n - 1); }
  }

  /** A listed day has (end - start) mod 1440 minutes in the window, overnight windows included. */
  lemma WindowLength(start: nat, end: nat)
    requires start < DAY && end < DAY
    ensures MinutesIn(start, end, DAY) == (end - start) % DAY
  {
    CountMinutes(start, end, DAY);
  }

  /** End of the anti-legionella window, as the controller computes it from start and duration. */
  function AlmEnd(startH: nat, startM: nat, duration: int): (nat, int) {
    var endM := startM + duration;
    var endH := if endM >= 60 then startH + endM / 60 else startH;
    (if endH >= 24 then endH - 24 else endH, if endM >= 60 then endM % 60 else endM)
  }

  lemma AlmEndAfter(startH: nat, startM: nat, duration: nat)
    requires startH < 24 && startM < 60 && duration < DAY
    ensures var (endH, endM) := AlmEnd(startH, startM, duration);
            && endH < 24 && 0 <= endM < 60
            && (endH * 60 + endM - (startH * 60 + startM)) % DAY == duration
  {
  }

  /** The disinfection window always gets its full duration, also over midnight. */
  lemma AlmWindowLength(startH: nat, startM: nat, duration: nat)
    requires startH < 24 && startM < 60 && duration < DAY
    ensures var (endH, endM) := AlmEnd(startH, startM, duration);
            endH < 24 && endM < 60 && MinutesIn(startH * 60 + startM, endH * 60 + endM, DAY) == duration
  {
    hide AlmEnd, MinutesIn;
    var (endH, endM) := AlmEnd(startH, startM, duration);
    AlmEndAfter(startH, startM, duration);
    WindowLength(startH * 60 + startM, endH * 60 + endM);
  }

  /** Wall clock of the controller; absent until the time is synchronised. */
  datatype Clock = Clock(dow: int, minute: nat)

  predicate ValidClock(c: Option<Clock>) { c.Some? ==> 1 <= c.value.dow <= 7 && c.value.minute < DAY }

  predicate InSchedule(clock: Option<Clock>, days: string, start: nat, end: int) {
    clock.Some? && days != "" && Listed(days, clock.value.dow) && InWindow(clock.value.minute, start, end)
  }

  /** A minute is in the window exactly if it comes sooner after its start than its end does, midnight included. */
  lemma InWindowIff(minute: nat, start: nat, end: nat)
    requires minute < DAY && start < DAY && end < DAY
    ensures InWindow(minute, start, end) <==> (minute - start) % 1440 < (end - start) % 1440
  {
  }

  /** A schedule with an accepted list is active exactly on the listed days, in the minutes of its window. */
  lemma ScheduledIff(clock: Option<Clock>, ds: seq<nat>, start: nat, end: nat)
    requires AllDays(ds) && ValidClock(clock) && start < DAY && end < DAY
    ensures InSchedule(clock, JoinDays(ds), start, end) <==>
              clock.Some? && clock.value.dow in ds && (clock.value.minute - start) % 1440 < (end - start) % 1440
  {
    if clock.Some? {
      InWindowIff(clock.value.minute, start, end);
      ListedIffInList(ds, clock.value.dow);
      JoinAlternates(ds);
    }
  }

  const EVERY_DAY := "1,2,3,4,5,6,7"

  lemma JoinOne(d: nat, ds: seq<nat>)
    requires 1 <= d <= 7 && AllDays(ds) && ds != []
    ensures AllDays([d] + ds) && JoinDays([d] + ds) == [Digit(d), ','] + JoinDays(ds)
  {
    assert ([d] + ds)[1..] == ds;
  }

  lemma EveryDay() returns (ds: seq<nat>)
    ensures AllDays(ds) && (forall d :: 1 <= d <= 7 ==> d in ds) && JoinDays(ds) == EVERY_DAY
  {
    hide JoinDays;
    LastDay();
    JoinOne(6, [7]);
    JoinOne(5, [6] + [7]);
    JoinOne(4, [5] + ([6] + [7]));
    ds := [4] + ([5] + ([6] + [7]));
    assert JoinDays(ds) == "4,5,6,7" && AllDays(ds);
    JoinOne(3, ds);
    JoinOne(2, [3] + ds);
    JoinOne(1, [2] + ([3] + ds));
    ds := [1] + ([2] + ([3] + ds));
    assert ds == [1, 2, 3, 4, 5, 6, 7];
  }

  lemma LastDay()
    ensures JoinDays([7]) == "7"
  {
  }

  lemma ScheduledDaily(clock: Option<Clock>, start: nat, end: nat)
    requires ValidClock(clock) && start < DAY && end < DAY
    ensures InSchedule(clock, EVERY_DAY, start, end) <==>
              clock.Some? && (clock.value.minute - start) % 1440 < (end - start) % 1440
  {
    hide InSchedule, JoinDays;
    var ds := EveryDay();
    ScheduledIff(clock, ds, start, end);
  }

  method IsInSchedule(clock: Option<Clock>, days: string, startHH: nat, startMM: nat, endHH: nat, endMM: int)
    returns (active: bool)
    requires ValidClock(clock)
    ensures active <==> InSchedule(clock, days, startHH * 60 + startMM, endHH * 60 + endMM)
  {
    if clock.None? || |days| == 0 {
      return false;
    }
    var dayMatch := DayMatches(days, clock.value.dow);
    if !dayMatch {
      return false;
    }
    var nowMinutes := clock.value.minute;
    var startMin := startHH * 60 + startMM;
    var endMin := endHH * 60 + endMM;
    if startMin <= endMin {
      active := nowMinutes >= startMin && nowMinutes < endMin;
    } else {
      active := nowMinutes >= startMin || nowMinutes < endMin;
    }
  }

  // ---- Times of day ----

  function TwoDigits(n: nat): string
    requires n < 100
  {
    [Digit(n / 10), Digit(n % 10)]
  }

  /** h:mm or hh:mm. */
  ghost predicate TimeText(value: string) {
    exists h: nat, m: nat :: IsTime(value, h, m)
  }

  predicate IsTime(value: string, h: nat, m: nat) {
    && h < 24 && m < 60
    && (value == TwoDigits(h) + ":" + TwoDigits(m) || (h < 10 && value == [Digit(h)] + ":" + TwoDigits(m)))
  }

  lemma ToIntDigits(s: string)
    requires 1 <= |s| <= 2 && forall i :: 0 <= i < |s| ==> IsDigit(s[i])
    ensures ToInt(s) == if |s| == 1 then Value(s[0]) else 10 * Value(s[0]) + Value(s[1])
  {
    assert TrimLeft(s) == s;
    if |s| == 1 {
      assert s[1..] == "";
      assert LeadingDigits(s, 0) == LeadingDigits(s[1..], Value(s[0]));
    } else {
      assert s[1..][1..] == "";
      assert LeadingDigits(s, 0) == LeadingDigits(s[1..], Value(s[0]));
      assert LeadingDigits(s[1..], Value(s[0])) == LeadingDigits(s[1..][1..], 10 * Value(s[0]) + Value(s[1]));
    }
  }

  /** The controller's check of a time: exactly h:mm and hh:mm with h < 24 and mm < 60 pass. */
  method IsValidTime(value: string) returns (ok: bool)
    ensures ok <==> TimeText(value)
  {
    var colon := Find(value, ':', 0);
    if colon == |value| || colon < 1 || colon > 2 || |value| != colon + 3 {
      NotTimeText(value, colon);
      return false;
    }
    for i := 0 to |value|
      invariant forall j :: 0 <= j < i && j != colon ==> IsDigit(value[j])
    {
      if i != colon && !IsDigit(value[i]) {
        NotTimeText(value, colon);
        return false;
      }
    }
    var hs, ms := value[..colon], value[colon + 1..];
    ToIntDigits(hs);
    ToIntDigits(ms);
    var h := ToInt(hs);
    var m := ToInt(ms);
    assert value == hs + ":" + ms;
    ok := 0 <= h <= 23 && 0 <= m <= 59;
    if ok {
      assert ms == TwoDigits(m) && hs == (if colon == 1 then [Digit(h)] else TwoDigits(h));
      assert IsTime(value, h, m);
    } else {
      forall h': nat, m': nat ensures !IsTime(value, h', m') {
        if IsTime(value, h', m') {
          TimeParts(value, h', m', colon);
        }
      }
    }
  }

  lemma TimeParts(value: string, h: nat, m: nat, colon: nat)
    requires IsTime(value, h, m) && colon == Find(value, ':', 0)
    ensures 1 <= colon <= 2 && |value| == colon + 3
    ensures forall i :: 0 <= i < |value| && i != colon ==> IsDigit(value[i])
    ensures ToInt(value[..colon]) == h && ToInt(value[colon + 1..]) == m
  {
    var long := value == TwoDigits(h) + ":" + TwoDigits(m);
    var k := if long then 2 else 1;
    assert value[k] == ':';
    assert colon == k;
    ToIntDigits(value[..k]);
    ToIntDigits(value[k + 1..]);
  }

  lemma NotTimeText(value: string, colon: nat)
    requires colon == Find(value, ':', 0)
    requires colon < 1 || colon > 2 || |value| != colon + 3
             || exists i :: 0 <= i < |value| && i != colon && !IsDigit(value[i])
    ensures !TimeText(value)
  {
    forall h: nat, m: nat ensures !IsTime(value, h, m) {
      if IsTime(value, h, m) { TimeParts(value, h, m, colon); }
    }
  }

  // ---- From the backend's normal form to the controller's check ----

  datatype Kind = BoolKind | IntKind(min: int, max: int) | TimeKind | DaysKind

  /** What a settings request carries, numbers already turned into their text. */
  datatype Raw = Missing | Flag(b: bool) | Text(s: string)

  datatype Normal = Ok(text: string) | Rejected

  /** str.strip() and str.lower() on ASCII text. */
  predicate IsStripped(c: char) { c == ' ' || 9 <= c as int <= 13 || 28 <= c as int <= 31 }

  function StripLeft(s: string): string {
    if s != "" && IsStripped(s[0]) then StripLeft(s[1..]) else s
  }

  function StripRight(s: string): string {
    if s != "" && IsStripped(s[|s| - 1]) then StripRight(s[..|s| - 1]) else s
  }

  function Strip(s: string): string { StripRight(StripLeft(s)) }

  function Lower(s: string): string {
    if s == "" then ""
    else [if 'A' <= s[0] <= 'Z' then (s[0] as int + 32) as char else s[0]] + Lower(s[1..])
  }

  function NatText(n: nat): string {
    if n < 10 then [Digit(n)] else NatText(n / 10) + [Digit(n % 10)]
  }

  function IntText(n: int): string { if n < 0 then "-" + NatText(-n) else NatText(n) }

  /** Position of the colon when the text is hour and minute, as the backend's pattern wants them. */
  predicate TimePattern(v: string) {
    && (|v| == 4 || |v| == 5)
    && var k := |v| - 3;
       && v[k] == ':' && '0' <= v[k + 1] <= '5' && IsDigit(v[k + 2])
       && if k == 1 then IsDigit(v[0])
          else (('0' <= v[0] <= '1' && IsDigit(v[1])) || (v[0] == '2' && '0' <= v[1] <= '3'))
  }

  /** A day, then any number of commas followed by a day. */
  predicate DaysPattern(v: string) {
    v == "" || (IsDay(v[0]) && (|v| == 1 || (|v| > 2 && v[1] == ',' && DaysPattern(v[2..]))))
  }

  /** The backend's canonical text of a setting; `parse` reads a number the way Python's float() does. */
  function Normalize(kind: Kind, raw: Raw, parse: string -> Option<real>): Normal {
    match kind
    case BoolKind =>
      (match raw
       case Flag(b) => Ok(if b then "1" else "0")
       case Missing => Rejected
       case Text(s) =>
         var v := Lower(Strip(s));
         if v == "1" || v == "true" || v == "on" then Ok("1")
         else if v == "0" || v == "false" || v == "off" then Ok("0")
         else Rejected)
    case IntKind(min, max) =>
      if !raw.Text? then Rejected
      else
        (match parse(Strip(raw.s))
         case None => Rejected
         case Some(num) =>
           if num != num.Floor as real || num < min as real || num > max as real then Rejected
           else Ok(IntText(num.Floor)))
    case TimeKind =>
      if !raw.Text? || !TimePattern(Strip(raw.s)) then Rejected
      else
        var v := Strip(raw.s);
        Ok(TwoDigits(Hour(v)) + ":" + v[|v| - 2..])
    case DaysKind =>
      if !raw.Text? || !DaysPattern(Strip(raw.s)) then Rejected else Ok(Strip(raw.s))
  }

  function Hour(v: string): (h: nat)
    requires TimePattern(v)
    ensures h < 24
  {
    if |v| == 4 then Value(v[0]) else 10 * Value(v[0]) + Value(v[1])
  }

  /** The controller's check of a value; `parse` reads a number the way the C library's strtof() does. */
  ghost predicate FirmwareAccepts(kind: Kind, value: string, parse: string -> Option<real>) {
    match kind
    case BoolKind => value == "0" || value == "1"
    case IntKind(min, max) =>
      var v := parse(value);
      v.Some? && v.value == v.value.Floor as real && min as real <= v.value <= max as real
    case TimeKind => TimeText(value)
    case DaysKind => DayList(value)
  }

  /** The number readers agree on plain integers (up to the precision of a float). */
  ghost predicate ReadsIntegers(parse: string -> Option<real>) {
    forall n: int {:trigger IntText(n)} :: -16_777_216 < n < 16_777_216 ==> parse(IntText(n)) == Some(n as real)
  }

  lemma {:induction false} PatternAlternates(v: string)
    requires DaysPattern(v)
    ensures Alternates(v) && (v == "" || |v| % 2 == 1)
  {
    if |v| > 1 {
      PatternAlternates(v[2..]);
      forall i | 2 <= i < |v| ensures v[i] == v[2..][i - 2] {}
    }
  }

  /** Whatever the backend stores for a flag, an integer, a time or a day list, the controller accepts. */
  lemma NormalizedIsAccepted(kind: Kind, raw: Raw, pyFloat: string -> Option<real>, strtof: string -> Option<real>)
    requires Normalize(kind, raw, pyFloat).Ok?
    requires ReadsIntegers(strtof)
    requires kind.IntKind? ==> -16_777_216 < kind.min && kind.max < 16_777_216
    ensures FirmwareAccepts(kind, Normalize(kind, raw, pyFloat).text, strtof)
  {
    var out := Normalize(kind, raw, pyFloat).text;
    match kind
    case BoolKind =>
    case IntKind(min, max) =>
      assert strtof(IntText(pyFloat(Strip(raw.s)).value.Floor)).Some?;
    case TimeKind =>
      var v := Strip(raw.s);
      var ms := v[|v| - 2..];
      var m := 10 * Value(ms[0]) + Value(ms[1]);
      assert ms == TwoDigits(m);
      assert IsTime(out, Hour(v), m);
    case DaysKind =>
      PatternAlternates(out);
      var ds := AlternatesIsDayList(out);
  }

  /** No space at either end. */
  predicate Bare(s: string) { s == "" || (!IsStripped(s[0]) && !IsStripped(s[|s| - 1])) }

  lemma {:induction false} BareStays(s: string)
    requires Bare(s)
    ensures Strip(s) == s
  {
  }

  lemma {:induction false} StrippedIsBare(s: string)
    ensures Bare(Strip(s))
  {
    LeftStripped(s);
    RightStripped(StripLeft(s));
  }

  lemma {:induction false} LeftStripped(s: string)
    ensures StripLeft(s) == "" || !IsStripped(StripLeft(s)[0])
  {
    if s != "" && IsStripped(s[0]) { LeftStripped(s[1..]); }
  }

  lemma {:induction false} RightStripped(s: string)
    requires s == "" || !IsStripped(s[0])
    ensures Bare(StripRight(s))
  {
    if s != "" && IsStripped(s[|s| - 1]) { RightStripped(s[..|s| - 1]); }
  }

  lemma {:induction false} NatTextBare(n: nat)
    ensures NatText(n) != "" && IsDigit(NatText(n)[0]) && IsDigit(NatText(n)[|NatText(n)| - 1])
  {
    if n >= 10 { NatTextBare(n / 10); }
  }

  lemma IntTextBare(n: int)
    ensures Bare(IntText(n))
  {
    NatTextBare(if n < 0 then -n else n);
  }

  lemma NormalTimeStays(v: string, out: string)
    requires TimePattern(v) && out == TwoDigits(Hour(v)) + ":" + v[|v| - 2..]
    ensures TimePattern(out) && Hour(out) == Hour(v) && out[|out| - 2..] == v[|v| - 2..] && Bare(out)
  {
  }

  /** A flag's normal form says what was sent. */
  lemma FlagAsSent(raw: Raw, parse: string -> Option<real>)
    ensures var n, sent := Normalize(BoolKind, raw, parse), if raw.Text? then Lower(Strip(raw.s)) else "";
            && (n == Ok("1") <==> raw == Flag(true) || sent == "1" || sent == "true" || sent == "on")
            && (n == Ok("0") <==> raw == Flag(false) || sent == "0" || sent == "false" || sent == "off")
            && (n.Ok? ==> n.text == "1" || n.text == "0")
  {
    assert "1"[0] == '1' && "0"[0] == '0' && "true"[0] == 't' && "on"[1] == 'n' && "off"[1] == 'f' && "false"[0] == 'f';
  }

  lemma NormalIntStays(min: int, max: int, raw: Raw, parse: string -> Option<real>)
    requires Normalize(IntKind(min, max), raw, parse).Ok? && ReadsIntegers(parse) && -16_777_216 < min
    requires max < 16_777_216
    ensures var n := Normalize(IntKind(min, max), raw, parse);
            Normalize(IntKind(min, max), Text(n.text), parse) == n
  {
    hide Strip, IntText;
    var num := parse(Strip(raw.s)).value.Floor;
    IntTextBare(num);
    BareStays(IntText(num));
    assert parse(IntText(num)) == Some(num as real);
  }

  lemma NormalListStays(raw: Raw, parse: string -> Option<real>)
    requires Normalize(DaysKind, raw, parse).Ok?
    ensures var n := Normalize(DaysKind, raw, parse); Normalize(DaysKind, Text(n.text), parse) == n
  {
    hide Strip, DaysPattern;
    StrippedIsBare(raw.s);
    BareStays(Strip(raw.s));
  }

  lemma NormalFlagStays(raw: Raw, parse: string -> Option<real>)
    requires Normalize(BoolKind, raw, parse).Ok?
    ensures var n := Normalize(BoolKind, raw, parse); Normalize(BoolKind, Text(n.text), parse) == n
  {
    hide Strip;
    BareStays("1");
    BareStays("0");
    assert Lower("1") == "1" && Lower("0") == "0" by { assert "1"[1..] == "" && "0"[1..] == ""; }
  }

  lemma NormalClockStays(raw: Raw, parse: string -> Option<real>)
    requires Normalize(TimeKind, raw, parse).Ok?
    ensures var n := Normalize(TimeKind, raw, parse); Normalize(TimeKind, Text(n.text), parse) == n
  {
    hide Strip, TimePattern, Hour;
    NormalTimeStays(Strip(raw.s), Normalize(TimeKind, raw, parse).text);
    BareStays(Normalize(TimeKind, raw, parse).text);
  }

  /** A normal form is its own normal form: what is stored can be sent back unchanged. */
  lemma NormalFormStays(kind: Kind, raw: Raw, parse: string -> Option<real>)
    requires Normalize(kind, raw, parse).Ok? && ReadsIntegers(parse)
    requires kind.IntKind? ==> -16_777_216 < kind.min && kind.max < 16_777_216
    ensures Normalize(kind, Text(Normalize(kind, raw, parse).text), parse) == Normalize(kind, raw, parse)
  {
    hide Normalize, ReadsIntegers;
    match kind
    case BoolKind => NormalFlagStays(raw, parse);
    case IntKind(min, max) => NormalIntStays(min, max, raw, parse);
    case TimeKind => NormalClockStays(raw, parse);
    case DaysKind => NormalListStays(raw, parse);
  }
}
