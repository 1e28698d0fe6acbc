/** The reminder scheduler (lib/scheduler.ts): one-off email schedules and
    daily reminders, and the periodic check that sends each due daily reminder.

    The local clock is a parameter read once per check (`Clock`: milliseconds
    since the epoch, a calendar-day number, hour and minute). What the check
    would hand to the mailer is appended to the `outbox` field instead. The two
    sources of pending PRs that sending consults, the `/api/prs` fetch and the
    locally stored board, are parameters as well. */
module Scheduler {
  import opened Common

  datatype EmailSchedule = EmailSchedule(id: string, prId: string, email: string,
                                         scheduledDate: string, scheduledTime: string, sent: bool)

  datatype ReminderTime = ReminderTime(hour: int, minute: int, caption: string)  // `label` in the source

  /** A daily reminder; `lastSent` is the calendar day it last went out (or was set up). */
  datatype DailyReminder = DailyReminder(id: string, email: string, teamName: string, active: bool,
                                         lastSent: int, reminderTimes: seq<ReminderTime>)

  datatype Clock = Clock(ms: nat, day: int, hour: int, minute: int)

  /** One pending-PR reminder email, as handed to the mailer. */
  datatype Dispatch = Dispatch(email: string, teamName: string, prs: seq<PRItem>)

  /** The `/api/prs` fetch: not ok (or failed), or ok with the `prs` it carried
      (empty when the body held no array). */
  datatype FetchResult = NotOk | Ok(prs: seq<PRItem>)

  const DEFAULT_TEAM_NAME := "Team"
  const WINDOW_MINUTES := 5
  const DailyTimes := [ReminderTime(11, 0, "Morning"), ReminderTime(15, 30, "Afternoon"), ReminderTime(17, 45, "Evening")]

  // ---- ids: a prefix and the decimal clock reading ----

  function DigitChar(d: nat): (c: char)
    requires d < 10
    ensures '0' <= c <= '9'
  {
    ('0' as int + d) as char
  }

  function DigitValue(c: char): (d: nat)
    requires '0' <= c <= '9'
    ensures d < 10
  {
    c as int - '0' as int
  }

  predicate AllDigits(s: string) {
    forall i :: 0 <= i < |s| ==> '0' <= s[i] <= '9'
  }

  /** `String(n)` for a non-negative integer. */
  function DecimalString(n: nat): (s: string)
    ensures s != [] && AllDigits(s)
  {
    if n < 10 then [DigitChar(n)] else DecimalString(n / 10) + [DigitChar(n % 10)]
  }

  function ParseDecimal(s: string): nat
    requires AllDigits(s)
  {
    if s == [] then 0 else ParseDecimal(s[..|s| - 1]) * 10 + DigitValue(s[|s| - 1])
  }

  /** The decimal form of a clock reading reads back as that reading. */
  lemma {:induction false} ParseDecimalString(n: nat)
    ensures ParseDecimal(DecimalString(n)) == n
  {
    if n >= 10 {
      var s := DecimalString(n);
      assert s[..|s| - 1] == DecimalString(n / 10);
      ParseDecimalString(n / 10);
    }
  }

  /** Ids minted at different milliseconds differ. */
  lemma IdsOfDistinctTimesDiffer(prefix: string, a: nat, b: nat)
    requires a != b
    ensures prefix + DecimalString(a) != prefix + DecimalString(b)
  {
    ParseDecimalString(a);
    ParseDecimalString(b);
    assert (prefix + DecimalString(a))[|prefix|..] == DecimalString(a);
    assert (prefix + DecimalString(b))[|prefix|..] == DecimalString(b);
  }

  // ---- pending PRs ----

  /** The statuses a reminder reports: initial, in review and approved. */
  predicate IsPending(s: Status) {
    s == Initial || s == InReview || s == Approved
  }

  /** `prs.filter((p) => pendingStatuses.includes(p.status))`. */
  function PendingOf(prs: seq<PRItem>): (r: seq<PRItem>)
    ensures |r| <= |prs|
    ensures forall p :: p in r <==> p in prs && IsPending(p.status)
  {
    if prs == [] then []
    else if IsPending(prs[0].status) then [prs[0]] + PendingOf(prs[1..])
    else PendingOf(prs[1..])
  }

  /** getPendingPRs: the pending PRs of the fetched listing when the fetch is ok;
      otherwise those of the stored board, when one is stored; otherwise none. */
  function GetPendingPRs(fetched: FetchResult, stored: Option<seq<PRItem>>): (r: seq<PRItem>)
    ensures forall p :: p in r <==>
      IsPending(p.status) && p in (if fetched.Ok? then fetched.prs else stored.GetOr([]))
    ensures fetched.NotOk? && stored.None? ==> r == []
  {
    match fetched
    case Ok(prs) => PendingOf(prs)
    case NotOk => if stored.Some? then PendingOf(stored.value) else []
  }

  // ---- the daily check ----

  function Abs(x: int): nat {
    if x < 0 then -x else x
  }

  /** The clock is at a reminder time: the same hour, within five minutes of it. */
  predicate InWindow(c: Clock, t: ReminderTime) {
    c.hour == t.hour && Abs(c.minute - t.minute) <= WINDOW_MINUTES
  }

  /** A reminder is due when it is active, one of its times is in window, and it
      has not gone out on this calendar day. */
  predicate Due(r: DailyReminder, c: Clock) {
    && r.active
    && r.lastSent != c.day
    && exists k :: 0 <= k < |r.reminderTimes| && InWindow(c, r.reminderTimes[k])
  }

  /** A reminder after one check: a due reminder is marked as sent today, whether
      or not there was anything to send. */
  function Step(r: DailyReminder, c: Clock): DailyReminder {
    if Due(r, c) then r.(lastSent := c.day) else r
  }

  function StepAll(rs: seq<DailyReminder>, c: Clock): (r: seq<DailyReminder>)
    ensures |r| == |rs| && forall i :: 0 <= i < |rs| ==> r[i] == Step(rs[i], c)
  {
    seq(|rs|, i requires 0 <= i < |rs| => Step(rs[i], c))
  }

  /** The email one reminder sends in a check: one, when it is due and there are
      pending PRs. */
  function OneSend(r: DailyReminder, c: Clock, pending: seq<PRItem>): seq<Dispatch> {
    if Due(r, c) && pending != [] then [Dispatch(r.email, r.teamName, pending)] else []
  }

  /** The emails a check sends, in reminder order. */
  function SendsOf(rs: seq<DailyReminder>, c: Clock, pending: seq<PRItem>): seq<Dispatch> {
    if rs == [] then [] else SendsOf(rs[..|rs| - 1], c, pending) + OneSend(rs[|rs| - 1], c, pending)
  }

  /** A check sends at most one email per reminder, each to a due reminder's
      address and team, listing the pending PRs. */
  lemma {:induction false} SendsOnlyToDue(rs: seq<DailyReminder>, c: Clock, pending: seq<PRItem>)
    ensures |SendsOf(rs, c, pending)| <= |rs|
    ensures forall d :: d in SendsOf(rs, c, pending) ==>
      d.prs == pending && pending != [] &&
      exists r :: r in rs && Due(r, c) && d.email == r.email && d.teamName == r.teamName
  {
    if rs != [] {
      var init := rs[..|rs| - 1];
      SendsOnlyToDue(init, c, pending);
      assert forall r :: r in init ==> r in rs;
      assert rs[|rs| - 1] in rs;
    }
  }

  /** One reminder over a sequence of checks: the reminder afterwards and how many
      of the checks found it due. */
  function Run(r: DailyReminder, clocks: seq<Clock>): (res: (DailyReminder, nat))
  {
    if clocks == [] then (r, 0)
    else
      var prev := Run(r, clocks[..|clocks| - 1]);
      var c := clocks[|clocks| - 1];
      (Step(prev.0, c), prev.1 + if Due(prev.0, c) then 1 else 0)
  }

  /** However often the check runs within one calendar day, a reminder is due at
      most once; and not at all when it already went out (or was set up) that day. */
  lemma {:induction false} DueAtMostOncePerDay(r: DailyReminder, clocks: seq<Clock>, day: int)
    requires forall k :: 0 <= k < |clocks| ==> clocks[k].day == day
    ensures Run(r, clocks).1 <= 1
    ensures Run(r, clocks).1 == 0 ==> Run(r, clocks).0 == r
    ensures Run(r, clocks).1 == 1 ==> Run(r, clocks).0.lastSent == day
    ensures r.lastSent == day ==> Run(r, clocks).1 == 0
  {
    if clocks != [] {
      var init := clocks[..|clocks| - 1];
      DueAtMostOncePerDay(r, init, day);
      assert clocks[|clocks| - 1].day == day;
    }
  }

  /** The reminder setupDailyReminders creates at clock `now`. */
  function NewReminder(email: string, teamName: Option<string>, now: Clock): (r: DailyReminder)
    ensures r.id == "daily_" + DecimalString(now.ms) && r.email == email
    ensures r.teamName == teamName.GetOr(DEFAULT_TEAM_NAME)
    ensures r.active && r.lastSent == now.day && r.reminderTimes == DailyTimes
  {
    DailyReminder("daily_" + DecimalString(now.ms), email, teamName.GetOr(DEFAULT_TEAM_NAME), true, now.day, DailyTimes)
  }

  /** A new reminder never goes out on the day it was set up. */
  lemma NotDueOnSetupDay(email: string, teamName: Option<string>, now: Clock, c: Clock)
    requires c.day == now.day
    ensures !Due(NewReminder(email, teamName, now), c)
  {
  }

  /** The three daily times, five-minute windows included, never overlap, so a
      check finds at most one of them in window. */
  lemma DailyWindowsDisjoint(c: Clock)
    ensures forall a, b :: 0 <= a < b < |DailyTimes| ==> !(InWindow(c, DailyTimes[a]) && InWindow(c, DailyTimes[b]))
  {
  }

  /** The scheduler's state. */
  class SchedulerService {
    var schedules: seq<EmailSchedule>
    var dailyReminders: seq<DailyReminder>
    var outbox: seq<Dispatch>

    /** A scheduler over the lists found in local storage. */
    constructor (savedSchedules: seq<EmailSchedule>, savedReminders: seq<DailyReminder>)
      ensures schedules == savedSchedules && dailyReminders == savedReminders && outbox == []
    {
      schedules := savedSchedules;
      dailyReminders := savedReminders;
      outbox := [];
    }

    /** scheduleEmail: appends one unsent schedule for the PR and returns its id. */
    method ScheduleEmail(pr: PRItem, email: string, date: string, time: string, nowMs: nat) returns (id: string)
      modifies this
      ensures id == "schedule_" + DecimalString(nowMs)
      ensures schedules == old(schedules) + [EmailSchedule(id, pr.id, email, date, time, false)]
      ensures dailyReminders == old(dailyReminders) && outbox == old(outbox)
    {
      id := "schedule_" + DecimalString(nowMs);
      schedules := schedules + [EmailSchedule(id, pr.id, email, date, time, false)];
    }

    /** setupDailyReminders: appends one active reminder with the three daily times;
        the team name is "Team" when none is passed. */
    method SetupDailyReminders(email: string, teamName: Option<string>, now: Clock) returns (id: string)
      modifies this
      ensures dailyReminders == old(dailyReminders) + [NewReminder(email, teamName, now)]
      ensures id == NewReminder(email, teamName, now).id
      ensures schedules == old(schedules) && outbox == old(outbox)
    {
      var reminder := NewReminder(email, teamName, now);
      dailyReminders := dailyReminders + [reminder];
      id := reminder.id;
    }

    /** sendDailyReminder: one email with the pending PRs, unless there are none. */
    method SendDailyReminder(reminder: DailyReminder, pending: seq<PRItem>)
      modifies this
      ensures outbox == old(outbox) + (if pending != [] then [Dispatch(reminder.email, reminder.teamName, pending)] else [])
      ensures schedules == old(schedules) && dailyReminders == old(dailyReminders)
    {
      if pending == [] {
        return;
      }
      outbox := outbox + [Dispatch(reminder.email, reminder.teamName, pending)];
    }

    /** One reminder's turn in the check: for each of its times in order, when
        the clock is in window and the reminder has not gone out today, send it
        and mark it as sent today. An inactive reminder is skipped. */
    method CheckReminder(reminder: DailyReminder, now: Clock, pending: seq<PRItem>) returns (r: DailyReminder)
      modifies this
      ensures r == Step(reminder, now)
      ensures outbox == old(outbox) + OneSend(reminder, now, pending)
      ensures schedules == old(schedules) && dailyReminders == old(dailyReminders)
    {
      r := reminder;
      if !r.active {
        return;
      }
      var j := 0;
      ghost var hit := false;
      while j < |r.reminderTimes|
        invariant 0 <= j <= |reminder.reminderTimes|
        invariant r.reminderTimes == reminder.reminderTimes && r.active
        invariant hit <==> exists k :: 0 <= k < j && InWindow(now, reminder.reminderTimes[k])
        invariant hit && reminder.lastSent != now.day ==>
          r == reminder.(lastSent := now.day) && outbox == old(outbox) + OneSend(reminder, now, pending)
        invariant !(hit && reminder.lastSent != now.day) ==> r == reminder && outbox == old(outbox)
        invariant schedules == old(schedules) && dailyReminders == old(dailyReminders)
      {
        var time := r.reminderTimes[j];
        if now.hour == time.hour && Abs(now.minute - time.minute) <= WINDOW_MINUTES {
          assert InWindow(now, reminder.reminderTimes[j]);
          hit := true;
          if r.lastSent != now.day {
            SendDailyReminder(r, pending);
            r := r.(lastSent := now.day);
          }
        }
        j := j + 1;
      }
    }

    /** checkAndSendDailyReminders: every reminder takes one step, in list order,
        and the due ones send. */
    method CheckAndSendDailyReminders(now: Clock, fetched: FetchResult, stored: Option<seq<PRItem>>)
      modifies this
      ensures dailyReminders == StepAll(old(dailyReminders), now)
      ensures outbox == old(outbox) + SendsOf(old(dailyReminders), now, GetPendingPRs(fetched, stored))
      ensures schedules == old(schedules)
    {
      var pending := GetPendingPRs(fetched, stored);
      ghost var rs0 := dailyReminders;
      ghost var ob0 := outbox;
      var i := 0;
      while i < |dailyReminders|
        invariant 0 <= i <= |dailyReminders| == |rs0|
        invariant forall k :: 0 <= k < i ==> dailyReminders[k] == Step(rs0[k], now)
        invariant forall k :: i <= k < |rs0| ==> dailyReminders[k] == rs0[k]
        invariant outbox == ob0 + SendsOf(rs0[..i], now, pending)
        invariant schedules == old(schedules)
      {
        var reminder := CheckReminder(dailyReminders[i], now, pending);
        dailyReminders := dailyReminders[i := reminder];
        assert rs0[..i + 1][..i] == rs0[..i];
        i := i + 1;
      }
      assert rs0[..i] == rs0;
    }

    function GetSchedules(): (r: seq<EmailSchedule>)
      reads this
      ensures r == schedules
    {
      schedules
    }

    function GetDailyReminders(): (r: seq<DailyReminder>)
      reads this
      ensures r == dailyReminders
    {
      dailyReminders
    }

    /** deleteSchedule: removes the first schedule with that id and answers true,
        or answers false and changes nothing. */
    method DeleteSchedule(id: string) returns (found: bool)
      modifies this
      ensures found <==> exists s :: s in old(schedules) && s.id == id
      ensures var i := FindIndex(old(schedules), (s: EmailSchedule) => s.id == id);
        if found then schedules == old(schedules)[..i] + old(schedules)[i + 1..] else schedules == old(schedules)
      ensures dailyReminders == old(dailyReminders) && outbox == old(outbox)
    {
      var i := FindIndex(schedules, (s: EmailSchedule) => s.id == id);
      if i >= 0 {
        schedules := schedules[..i] + schedules[i + 1..];
        return true;
      }
      return false;
    }

    /** deleteDailyReminder: removes the first reminder with that id and answers
        true, or answers false and changes nothing. */
    method DeleteDailyReminder(id: string) returns (found: bool)
      modifies this
      ensures found <==> exists r :: r in old(dailyReminders) && r.id == id
      ensures var i := FindIndex(old(dailyReminders), (r: DailyReminder) => r.id == id);
        if found then dailyReminders == old(dailyReminders)[..i] + old(dailyReminders)[i + 1..]
        else dailyReminders == old(dailyReminders)
      ensures schedules == old(schedules) && outbox == old(outbox)
    {
      var i := FindIndex(dailyReminders, (r: DailyReminder) => r.id == id);
      if i >= 0 {
        dailyReminders := dailyReminders[..i] + dailyReminders[i + 1..];
        return true;
      }
      return false;
    }

    /** toggleDailyReminder: flips `active` on the first reminder with that id and
        answers its new value; answers false when there is none. */
    method ToggleDailyReminder(id: string) returns (active: bool)
      modifies this
      ensures var i := FindIndex(old(dailyReminders), (r: DailyReminder) => r.id == id);
        if i < 0 then !active && dailyReminders == old(dailyReminders)
        else
          && active == !old(dailyReminders)[i].active
          && dailyReminders == old(dailyReminders)[i := old(dailyReminders)[i].(active := active)]
      ensures schedules == old(schedules) && outbox == old(outbox)
    {
      var i := FindIndex(dailyReminders, (r: DailyReminder) => r.id == id);
      if i < 0 {
        return false;
      }
      active := !dailyReminders[i].active;
      dailyReminders := dailyReminders[i := dailyReminders[i].(active := active)];
    }
  }
}
