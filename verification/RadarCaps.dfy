/** The caps of the reply radar over any sequence of runs: per day, per author and per calendar day. */
module RadarCaps {
  import opened Common
  import opened RadarClaims
  import opened Radar
  import opened RadarLaws
  import opened RadarRuns

  // ----- caps per day and per author -----

  function OnDay(day: Day): Draft -> bool {
    (d: Draft) => d.day == day
  }

  function ByAuthor(day: Day, a: Author): Draft -> bool {
    (d: Draft) => d.day == day && d.post.author == a
  }

  function Unasked(day: Day, a: Author): Draft -> bool {
    (d: Draft) => d.day == day && d.post.author == a && d.post.source != Mention
  }

  /** How one turn moves the counters of a day that is not over. */
  lemma VisitCounts(p: Progress, t: Post, i: nat, r: Session, day: Day, a: Author)
    requires !r.dry && day >= Today(r) && a != ""
    ensures var q := Visit(p, t, i, r);
            var made := if q.made > p.made && day == Today(r) then 1 else 0;
            && DraftedOn(q.state, day) == DraftedOn(p.state, day) + made
            && DraftsFor(q.state, day, a) == DraftsFor(p.state, day, a) + (if t.author == a then made else 0)
            && (made == 1 && t.author == a && t.source != Mention ==> DraftsFor(p.state, day, a) < PER_AUTHOR_PER_DAY)
  {
    hide Conflict, Remember, IsFinal, Book, LastSeen, DraftedOn, DraftsFor;
    var q := Visit(p, t, i, r);
    if q.made > p.made {
      var st := Spend(p.state, r.answers(i), r.clock(i));
      BookedCounts(st, t, Today(r), day, a);
      SameCounters(p.state, st, day, a);
      if t.source != Mention && t.author == a {
        CapMeansFew(p.state, t, p.used, Today(r));
      }
    } else {
      SameCounters(p.state, q.state, day, a);
    }
  }

  lemma BookedCounts(st: State, t: Post, today: Day, day: Day, a: Author)
    requires day >= today && a != ""
    ensures var after := Book(st, t, today);
            && DraftedOn(after, day) == DraftedOn(st, day) + (if day == today then 1 else 0)
            && DraftsFor(after, day, a) == DraftsFor(st, day, a) + (if day == today && t.author == a then 1 else 0)
  {
    hide LastSeen;
  }

  lemma CapMeansFew(st: State, t: Post, used: set<Author>, today: Day)
    requires !AuthorCapped(st, t, used, today) && t.source != Mention && t.author != ""
    ensures DraftsFor(st, today, t.author) < PER_AUTHOR_PER_DAY
  {
  }

  lemma SameCounters(s: State, t: State, day: Day, a: Author)
    requires t.perDay == s.perDay && t.perAuthor == s.perAuthor
    ensures DraftedOn(t, day) == DraftedOn(s, day) && DraftsFor(t, day, a) == DraftsFor(s, day, a)
  {
  }

  lemma VisitDrafts(p: Progress, t: Post, i: nat, r: Session)
    ensures var q := Visit(p, t, i, r);
            if q.made == p.made then q.drafts == p.drafts
            else q.made == p.made + 1 && exists at, marks, ok :: q.drafts == p.drafts + [Draft(t, Today(r), at, marks, ok)]
  {
    hide MarkSeen, Book, Conflict, Remember, AuthorCapped, IsFinal;
    var q := Visit(p, t, i, r);
    if q.made > p.made {
      assert q.drafts == p.drafts + [Draft(t, Today(r), r.clock(i), r.answers(i).marks, r.answers(i).passes)];
    }
  }

  lemma {:induction false} FewerUnasked(log: seq<Draft>, day: Day, a: Author)
    ensures |Filter(log, Unasked(day, a))| <= |Filter(log, ByAuthor(day, a))| <= |Filter(log, OnDay(day))|
  {
    if log != [] {
      FewerUnasked(log[1..], day, a);
    }
  }

  /** For one day and author: the log is covered by the counters and stays under the caps. */
  ghost predicate UnderCaps(st: State, log: seq<Draft>, day: Day, a: Author) {
    && |Filter(log, OnDay(day))| <= DraftedOn(st, day)
    && |Filter(log, ByAuthor(day, a))| <= DraftsFor(st, day, a)
    && |Filter(log, OnDay(day))| <= DAILY_MAX
    && |Filter(log, Unasked(day, a))| <= PER_AUTHOR_PER_DAY
  }

  lemma VisitUnderCaps(p: Progress, t: Post, i: nat, r: Session, before: seq<Draft>, a: Author)
    requires !r.dry && a != "" && UnderCaps(p.state, before + p.drafts, Today(r), a)
    requires DraftedOn(p.state, Today(r)) < DAILY_MAX
    ensures var q := Visit(p, t, i, r); UnderCaps(q.state, before + q.drafts, Today(r), a)
  {
    hide Visit, DraftedOn, DraftsFor, Filter, OnDay, ByAuthor, Unasked;
    var q, log := Visit(p, t, i, r), before + p.drafts;
    VisitCounts(p, t, i, r, Today(r), a);
    VisitDrafts(p, t, i, r);
    if q.made > p.made {
      var at, marks, ok :| q.drafts == p.drafts + [Draft(t, Today(r), at, marks, ok)];
      var d := Draft(t, Today(r), at, marks, ok);
      assert before + q.drafts == log + [d];
      AddedDraft(log, d, Today(r), a);
      FewerUnasked(log, Today(r), a);
    }
  }

  lemma AddedDraft(log: seq<Draft>, d: Draft, day: Day, a: Author)
    ensures |Filter(log + [d], OnDay(day))| == |Filter(log, OnDay(day))| + (if d.day == day then 1 else 0)
    ensures |Filter(log + [d], ByAuthor(day, a))|
         == |Filter(log, ByAuthor(day, a))| + (if d.day == day && d.post.author == a then 1 else 0)
    ensures |Filter(log + [d], Unasked(day, a))|
         == |Filter(log, Unasked(day, a))| + (if d.day == day && d.post.author == a && d.post.source != Mention then 1 else 0)
  {
    assert [d][1..] == [];
    FilterAppend(log, [d], OnDay(day));
    FilterAppend(log, [d], ByAuthor(day, a));
    FilterAppend(log, [d], Unasked(day, a));
  }

  lemma {:induction false} WalkUnderCaps(p: Progress, ordered: seq<Post>, i: nat, room: int, r: Session, before: seq<Draft>, a: Author)
    requires i <= |ordered| && !r.dry && a != "" && UnderCaps(p.state, before + p.drafts, Today(r), a)
    requires p.made < room ==> DraftedOn(p.state, Today(r)) + room - p.made <= DAILY_MAX
    ensures var q := Walk(p, ordered, i, room, r); UnderCaps(q.state, before + q.drafts, Today(r), a)
    decreases |ordered| - i
  {
    hide Visit, Lapse, Filter;
    if i < |ordered| {
      if p.made >= room {
        LapseAccounts(p, ordered[i..], r.dry);
      } else {
        VisitUnderCaps(p, ordered[i], i, r, before, a);
        VisitCounts(p, ordered[i], i, r, Today(r), a);
        VisitDrafts(p, ordered[i], i, r);
        WalkUnderCaps(Visit(p, ordered[i], i, r), ordered, i + 1, room, r, before, a);
      }
    }
  }

  /** A run on another day adds no draft to this one, and a later day's counters stand. */
  lemma {:induction false} WalkOtherDay(p: Progress, ordered: seq<Post>, i: nat, room: int, r: Session, day: Day, a: Author)
    requires i <= |ordered| && !r.dry && a != "" && day != Today(r)
    requires forall d :: d in p.drafts ==> d.day == Today(r)
    ensures var q := Walk(p, ordered, i, room, r);
            && (forall d :: d in q.drafts ==> d.day == Today(r))
            && (day > Today(r) ==>
                && DraftedOn(q.state, day) == DraftedOn(p.state, day)
                && DraftsFor(q.state, day, a) == DraftsFor(p.state, day, a))
    decreases |ordered| - i
  {
    hide Visit, Lapse, Filter, DraftedOn, DraftsFor;
    if i < |ordered| {
      if p.made >= room {
        LapseAccounts(p, ordered[i..], r.dry);
        SameCounters(p.state, Lapse(p, ordered[i..], r.dry).state, day, a);
      } else {
        VisitDrafts(p, ordered[i], i, r);
        if day > Today(r) {
          VisitCounts(p, ordered[i], i, r, day, a);
        }
        WalkOtherDay(Visit(p, ordered[i], i, r), ordered, i + 1, room, r, day, a);
      }
    }
  }

  /** Outside drafting a run leaves the counters of drafts alone. */
  lemma RunCounters(st: State, r: Session, day: Day, a: Author)
    ensures var p := Drafting(st, r);
            && RunOnce(st, r).drafts == p.drafts
            && DraftedOn(Begin(Opened(st, r)).state, day) == DraftedOn(st, day)
            && DraftsFor(Begin(Opened(st, r)).state, day, a) == DraftsFor(st, day, a)
            && DraftedOn(RunOnce(st, r).state, day) == DraftedOn(p.state, day)
            && DraftsFor(RunOnce(st, r).state, day, a) == DraftsFor(p.state, day, a)
  {
    hide Walk, DraftedOn, DraftsFor, Offered;
    SameCounters(Opened(st, r), st, day, a);
    SameCounters(RunOnce(st, r).state, Drafting(st, r).state, day, a);
  }

  lemma RunUnderCaps(st: State, log: seq<Draft>, r: Session, day: Day, a: Author)
    requires a != "" && day >= Today(r) && UnderCaps(st, log, day, a)
    ensures UnderCaps(RunOnce(st, r).state, log + (if r.dry then [] else RunOnce(st, r).drafts), day, a)
  {
    hide Walk, Filter, Offered, DraftedOn, DraftsFor, Closing, Opened;
    var q, p := RunOnce(st, r), Begin(Opened(st, r));
    RunCounters(st, r, day, a);
    if r.dry {
      DryWalk(p, Offered(st, r), 0, Room(st, r), r);
      SameCounters(p.state, Drafting(st, r).state, day, a);
      DryUnderCaps(st, q.state, log, day, a);
    } else if day == Today(r) {
      assert log + p.drafts == log;
      RoomIsLeft(st, r);
      WalkUnderCaps(p, Offered(st, r), 0, Room(st, r), r, log, a);
    } else {
      WalkOtherDay(p, Offered(st, r), 0, Room(st, r), r, day, a);
      OtherDayAdds(log, q.drafts, day, a);
      MoveUnderCaps(st, q.state, log, log + q.drafts, day, a);
    }
  }

  lemma RoomIsLeft(st: State, r: Session)
    ensures Room(st, r) > 0 ==> DraftedOn(st, Today(r)) + Room(st, r) <= DAILY_MAX
    ensures Room(st, r) <= DAILY_MAX
  {
  }

  lemma DryUnderCaps(st: State, t: State, log: seq<Draft>, day: Day, a: Author)
    requires UnderCaps(st, log, day, a) && DraftedOn(t, day) == DraftedOn(st, day) && DraftsFor(t, day, a) == DraftsFor(st, day, a)
    ensures UnderCaps(t, log + [], day, a)
  {
    assert log + [] == log;
  }

  lemma MoveUnderCaps(st: State, t: State, log: seq<Draft>, more: seq<Draft>, day: Day, a: Author)
    requires UnderCaps(st, log, day, a)
    requires DraftedOn(t, day) == DraftedOn(st, day) && DraftsFor(t, day, a) == DraftsFor(st, day, a)
    requires Filter(more, OnDay(day)) == Filter(log, OnDay(day))
    requires Filter(more, ByAuthor(day, a)) == Filter(log, ByAuthor(day, a))
    requires Filter(more, Unasked(day, a)) == Filter(log, Unasked(day, a))
    ensures UnderCaps(t, more, day, a)
  {
  }

  lemma OtherDayAdds(log: seq<Draft>, drafts: seq<Draft>, day: Day, a: Author)
    requires forall d :: d in drafts ==> d.day != day
    ensures Filter(log + drafts, OnDay(day)) == Filter(log, OnDay(day))
    ensures Filter(log + drafts, ByAuthor(day, a)) == Filter(log, ByAuthor(day, a))
    ensures Filter(log + drafts, Unasked(day, a)) == Filter(log, Unasked(day, a))
  {
    FilterAppend(log, drafts, OnDay(day));
    FilterAppend(log, drafts, ByAuthor(day, a));
    FilterAppend(log, drafts, Unasked(day, a));
    FilterNone(drafts, OnDay(day));
    FilterNone(drafts, ByAuthor(day, a));
    FilterNone(drafts, Unasked(day, a));
  }

  /** Past days: their counters may be gone, their log is closed. */
  ghost predicate CapsHold(log: seq<Draft>, day: Day, a: Author) {
    |Filter(log, OnDay(day))| <= DAILY_MAX && |Filter(log, Unasked(day, a))| <= PER_AUTHOR_PER_DAY
  }

  lemma DaysInOrder(sessions: seq<Session>)
    requires InOrder(sessions) && |sessions| > 1
    ensures Today(sessions[|sessions| - 2]) <= Today(sessions[|sessions| - 1])
  {
    var r, s := sessions[|sessions| - 2], sessions[|sessions| - 1];
    assert ClockMoves(r) && r.finish <= s.start;
  }

  lemma {:induction false} KeptUnderCaps(st: State, sessions: seq<Session>, day: Day, a: Author)
    requires InOrder(sessions) && a != ""
    ensures CapsHold(Standing(st, sessions), day, a)
    ensures (sessions == [] || Today(sessions[|sessions| - 1]) <= day)
      ==> UnderCaps(RunAll(st, sessions), Standing(st, sessions), day, a)
  {
    if sessions != [] {
      hide RunOnce;
      var init, r := sessions[..|sessions| - 1], sessions[|sessions| - 1];
      KeptUnderCaps(st, init, day, a);
      var mid, log := RunAll(st, init), Standing(st, init);
      if |sessions| > 1 {
        DaysInOrder(sessions);
      }
      hide UnderCaps, Today;
      assert log + [] == log;
      BlankUnderCaps(day, a);
      if r.ends.Completes? {
        if Today(r) <= day {
          RunUnderCaps(mid, log, r, day, a);
          CapsFollow(RunOnce(mid, r).state, log + (if r.dry then [] else RunOnce(mid, r).drafts), day, a);
        } else {
          PastDayAdds(mid, log, r, day, a);
        }
      }
    }
  }

  lemma BlankUnderCaps(day: Day, a: Author)
    ensures UnderCaps(BLANK, [], day, a) && CapsHold([], day, a)
  {
  }

  lemma CapsFollow(st: State, log: seq<Draft>, day: Day, a: Author)
    requires UnderCaps(st, log, day, a)
    ensures CapsHold(log, day, a)
  {
  }

  lemma PastDayAdds(st: State, log: seq<Draft>, r: Session, day: Day, a: Author)
    requires a != "" && day < Today(r) && CapsHold(log, day, a)
    ensures CapsHold(log + (if r.dry then [] else RunOnce(st, r).drafts), day, a)
  {
    hide Walk, Filter, Offered;
    if r.dry {
      assert log + [] == log;
    } else {
      WalkOtherDay(Begin(Opened(st, r)), Offered(st, r), 0, Room(st, r), r, day, a);
      OtherDayAdds(log, RunOnce(st, r).drafts, day, a);
    }
  }

  /** Every draft sent is one of a run that wrote its state or one of a run that did not. */
  lemma {:induction false} SentSplits(st: State, sessions: seq<Session>, keep: Draft -> bool)
    ensures |Filter(SentBy(st, sessions, Any()), keep)|
         == |Filter(SentBy(st, sessions, Completed()), keep)| + |Filter(SentBy(st, sessions, Unsaved()), keep)|
  {
    if sessions != [] {
      hide Drafts, RunAll;
      var init, r := sessions[..|sessions| - 1], sessions[|sessions| - 1];
      SentSplits(st, init, keep);
      var drafts := if r.dry then [] else Drafts(RunAll(st, init), r);
      FilterAppend(SentBy(st, init, Any()), drafts, keep);
      FilterAppend(SentBy(st, init, Completed()), if r.ends.Completes? then drafts else [], keep);
      FilterAppend(SentBy(st, init, Unsaved()), if r.ends.Completes? then [] else drafts, keep);
    }
  }

  /**
   Over any runs in time order, booked by the day a run began: at most three drafts a day, and at
   most two a day for a named author beyond the answers to mentions, plus what runs sent that did
   not write their state, and what was counted in a torn file.
   */
  lemma DraftsStayUnderCaps(st: State, sessions: seq<Session>, day: Day, a: Author)
    requires InOrder(sessions) && a != ""
    ensures |Filter(SentBy(st, sessions, Any()), OnDay(day))|
         <= 3 + |Filter(SentBy(st, sessions, Unsaved()), OnDay(day))| + |Filter(Erased(st, sessions), OnDay(day))|
    ensures |Filter(SentBy(st, sessions, Any()), Unasked(day, a))|
         <= 2 + |Filter(SentBy(st, sessions, Unsaved()), Unasked(day, a))|
            + |Filter(Erased(st, sessions), Unasked(day, a))|
  {
    KeptUnderCaps(st, sessions, day, a);
    CompletedSplits(st, sessions);
    FilterAppend(Erased(st, sessions), Standing(st, sessions), OnDay(day));
    FilterAppend(Erased(st, sessions), Standing(st, sessions), Unasked(day, a));
    SentSplits(st, sessions, OnDay(day));
    SentSplits(st, sessions, Unasked(day, a));
  }

  // ----- by the day a draft was sent -----

  function OnDate(date: Day): Draft -> bool {
    (d: Draft) => DayOf(d.at) == date
  }

  /** Sent on a date by a run that began before it. */
  function Overnight(date: Day): Draft -> bool {
    (d: Draft) => DayOf(d.at) == date && d.day < date
  }

  lemma {:induction false} RunDates(p: Progress, ordered: seq<Post>, i: nat, room: int, r: Session)
    requires i <= |ordered| && ClockMoves(r)
    requires forall d :: d in p.drafts ==> d.day == Today(r) && r.start <= d.at <= r.finish
    ensures forall d :: d in Walk(p, ordered, i, room, r).drafts ==> d.day == Today(r) && r.start <= d.at <= r.finish
    decreases |ordered| - i
  {
    hide Visit, Lapse;
    if i < |ordered| {
      if p.made >= room {
        LapseAccounts(p, ordered[i..], r.dry);
      } else {
        VisitDates(p, ordered[i], i, r);
        RunDates(Visit(p, ordered[i], i, r), ordered, i + 1, room, r);
      }
    }
  }

  lemma VisitDates(p: Progress, t: Post, i: nat, r: Session)
    requires ClockMoves(r) && forall d :: d in p.drafts ==> d.day == Today(r) && r.start <= d.at <= r.finish
    ensures forall d :: d in Visit(p, t, i, r).drafts ==> d.day == Today(r) && r.start <= d.at <= r.finish
  {
    hide MarkSeen, Book, Conflict, Remember, AuthorCapped, IsFinal, Today;
  }

  lemma {:induction false} AtMostAll(s: seq<Draft>, keep: Draft -> bool)
    ensures |Filter(s, keep)| <= |s|
  {
    if s != [] {
      AtMostAll(s[1..], keep);
    }
  }

  /** A run sends at most three drafts, and none overnight unless it was under way at that midnight. */
  lemma RunOvernight(st: State, r: Session, date: Day)
    requires ClockMoves(r)
    ensures |Drafts(st, r)| <= DAILY_MAX && |Filter(Drafts(st, r), Overnight(date))| <= DAILY_MAX
    ensures !(Today(r) < date <= DayOf(r.finish)) ==> Filter(Drafts(st, r), Overnight(date)) == []
    ensures forall d :: d in Drafts(st, r) ==> d.day <= DayOf(d.at)
  {
    RunAccounts(st, r);
    RoomIsLeft(st, r);
    RunDates(Begin(Opened(st, r)), Offered(st, r), 0, Room(st, r), r);
    hide Walk, Offered, RunOnce;
    assert forall d :: d in Drafts(st, r) ==> d in RunOnce(st, r).drafts;
    AtMostAll(Drafts(st, r), Overnight(date));
    if !(Today(r) < date <= DayOf(r.finish)) {
      FilterNone(Drafts(st, r), Overnight(date));
    }
  }

  lemma {:induction false} OnDateSplits(s: seq<Draft>, date: Day)
    requires forall d :: d in s ==> d.day <= DayOf(d.at)
    ensures |Filter(s, OnDate(date))| <= |Filter(s, OnDay(date))| + |Filter(s, Overnight(date))|
  {
    if s != [] {
      OnDateSplits(s[1..], date);
      assert s[0] in s;
    }
  }

  /** What one more run adds to the overnight drafts. */
  function Overnights(st: State, sessions: seq<Session>, date: Day): nat {
    |Filter(SentBy(st, sessions, Completed()), Overnight(date))|
  }

  lemma OneMoreRun(st: State, sessions: seq<Session>, date: Day)
    requires InOrder(sessions) && sessions != []
    ensures var init, r := sessions[..|sessions| - 1], sessions[|sessions| - 1];
            && Overnights(st, sessions, date) <= Overnights(st, init, date) + DAILY_MAX
            && (!(Today(r) < date <= DayOf(r.finish)) ==> Overnights(st, sessions, date) == Overnights(st, init, date))
  {
    hide Drafts, RunAll, InOrder, Overnight;
    var init, r := sessions[..|sessions| - 1], sessions[|sessions| - 1];
    LastOfSessions(sessions);
    RunOvernight(RunAll(st, init), r, date);
    var drafts := if r.ends.Completes? && !r.dry then Drafts(RunAll(st, init), r) else [];
    FilterAppend(SentBy(st, init, Completed()), drafts, Overnight(date));
  }

  lemma {:induction false} OvernightIsOneRun(st: State, sessions: seq<Session>, date: Day)
    requires InOrder(sessions)
    ensures Overnights(st, sessions, date) <= DAILY_MAX
    ensures (forall r :: r in sessions ==> !(Today(r) < date <= DayOf(r.finish))) ==> Overnights(st, sessions, date) == 0
    ensures (sessions == [] || DayOf(sessions[|sessions| - 1].finish) < date) ==> Overnights(st, sessions, date) == 0
  {
    if sessions != [] {
      hide Overnights, InOrder;
      var init, r := sessions[..|sessions| - 1], sessions[|sessions| - 1];
      assert sessions == init + [r];
      LastOfSessions(sessions);
      OneMoreRun(st, sessions, date);
      OvernightIsOneRun(st, init, date);
    }
  }

  lemma {:induction false} SentAfterBooked(st: State, sessions: seq<Session>)
    requires InOrder(sessions)
    ensures forall d :: d in SentBy(st, sessions, Completed()) ==> d.day <= DayOf(d.at)
  {
    if sessions != [] {
      hide Drafts, RunAll, InOrder;
      var init, r := sessions[..|sessions| - 1], sessions[|sessions| - 1];
      LastOfSessions(sessions);
      SentAfterBooked(st, init);
      RunOvernight(RunAll(st, init), r, 0);
    }
  }

  lemma LastOfSessions(sessions: seq<Session>)
    requires InOrder(sessions) && sessions != []
    ensures var init, r := sessions[..|sessions| - 1], sessions[|sessions| - 1];
            && r in sessions && ClockMoves(r) && InOrder(init) && Today(r) <= DayOf(r.finish)
            && (init != [] ==> DayOf(init[|init| - 1].finish) <= Today(r))
  {
    var init, r := sessions[..|sessions| - 1], sessions[|sessions| - 1];
    if init != [] {
      assert init[|init| - 1] == sessions[|sessions| - 2];
    }
  }

  /**
   By the calendar day on which they were sent: completed runs send at most three drafts, or six
   when one of them was under way at the midnight before, plus those whose count was lost with a
   torn file.
   */
  lemma DraftsPerDate(st: State, sessions: seq<Session>, date: Day)
    requires InOrder(sessions)
    ensures |Filter(SentBy(st, sessions, Completed()), OnDate(date))| <= 6 + |Filter(Erased(st, sessions), OnDay(date))|
    ensures (forall r :: r in sessions ==> !(Today(r) < date <= DayOf(r.finish)))
      ==> |Filter(SentBy(st, sessions, Completed()), OnDate(date))| <= 3 + |Filter(Erased(st, sessions), OnDay(date))|
    ensures |Filter(SentBy(st, sessions, Any()), OnDate(date))|
         <= 6 + |Filter(Erased(st, sessions), OnDay(date))| + |Filter(SentBy(st, sessions, Unsaved()), OnDate(date))|
  {
    hide SentBy, Standing, Erased;
    KeptUnderCaps(st, sessions, date, "a");
    CompletedSplits(st, sessions);
    FilterAppend(Erased(st, sessions), Standing(st, sessions), OnDay(date));
    OvernightIsOneRun(st, sessions, date);
    SentAfterBooked(st, sessions);
    OnDateSplits(SentBy(st, sessions, Completed()), date);
    SentSplits(st, sessions, OnDate(date));
  }
}
