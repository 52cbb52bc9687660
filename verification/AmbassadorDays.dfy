/** Comments per UTC day, over any sequence of runs of the ambassador. */
module AmbassadorDays {
  import opened Common
  import opened CommentGate
  import opened Ambassador
  import opened AmbassadorLaws
  import opened AmbassadorRuns

  // ----- comments per day -----

  function OnDay(day: Day): Reply -> bool {
    (r: Reply) => r.day == day
  }

  function Replies(log: seq<Reply>, day: Day): nat {
    |Filter(log, OnDay(day))|
  }

  lemma OneReplyMore(log: seq<Reply>, r: Reply, day: Day)
    ensures Replies(log + [r], day) == Replies(log, day) + (if r.day == day then 1 else 0)
  {
    assert [r][1..] == [];
    FilterAppend(log, [r], OnDay(day));
  }

  /** Replies are posted as the days go by, the first no earlier than `from`. */
  ghost predicate Forward(log: seq<Reply>, from: Day) {
    (forall i :: 0 <= i < |log| ==> from <= log[i].day)
    && forall i, j :: 0 <= i < j < |log| ==> log[i].day <= log[j].day
  }

  /** At `clock` the counter covers the log, has room left, and knows nothing of days to come. */
  ghost predicate DayFits(log: seq<Reply>, days: Days, room: nat, clock: Day, day: Day) {
    && Replies(log, day) <= DAILY_MAX
    && (day >= clock ==> Replies(log, day) <= At(days, day) && (room > 0 ==> At(days, day) + room <= DAILY_MAX))
    && (day > clock ==> At(days, day) == 0)
  }

  lemma PostingFits(log: seq<Reply>, days: Days, room: nat, clock: Day, r: Reply, day: Day)
    requires DayFits(log, days, room, clock, day) && room > 0 && clock <= r.day && room <= MAX_PER_RUN
    ensures DayFits(log + [r], CountComment(days, r.day), room - 1, r.day, day)
  {
    OneReplyMore(log, r, day);
  }

  function Clock(log: seq<Reply>, clock: Day): Day {
    if log == [] then clock else log[|log| - 1].day
  }

  lemma {:induction false} CommentsFitDay(before: seq<Reply>, p: Progress, v: View, cs: seq<Comment>, i: nat, thread: Id,
                                          fates: Fates, dry: bool, today: Day, day: Day)
    requires i <= |cs| && p.room <= MAX_PER_RUN
    requires Forward(Comments(p, v, cs, i, thread, fates, dry).0.replies, today)
    requires DayFits(before + p.replies, p.days, p.room, Clock(p.replies, today), day)
    ensures var q := Comments(p, v, cs, i, thread, fates, dry).0;
            && DayFits(before + q.replies, q.days, q.room, Clock(q.replies, today), day)
            && q.room <= p.room && p.replies <= q.replies
    decreases |cs| - i
  {
    hide Consider, DayFits, Forward, Answers;
    if i < |cs| && p.room > 0 {
      var c := cs[i];
      var (q, w) := Consider(p, v, c, thread, fates(i), dry);
      ConsiderEffect(p, v, c, thread, fates(i), dry);
      if q.replies != p.replies {
        var d :| Answers(p, v, q, w, c, thread, d);
        AnsweredReply(p, v, q, w, c, thread, d);
        var r := Reply(thread, c.id, c.author, d);
        RepliesOnlyGrow(q, w, cs, i + 1, thread, fates, dry);
        ForwardAt(Comments(p, v, cs, i, thread, fates, dry).0.replies, p.replies, r, today);
        PostingFits(before + p.replies, p.days, p.room, Clock(p.replies, today), r, day);
        assert before + q.replies == (before + p.replies) + [r];
      }
      CommentsFitDay(before, q, w, cs, i + 1, thread, fates, dry, today, day);
    }
  }

  lemma {:induction false} RepliesOnlyGrow(p: Progress, v: View, cs: seq<Comment>, i: nat, thread: Id, fates: Fates, dry: bool)
    requires i <= |cs|
    ensures p.replies <= Comments(p, v, cs, i, thread, fates, dry).0.replies
    decreases |cs| - i
  {
    hide Consider, Answers;
    if i < |cs| && p.room > 0 {
      var (q, w) := Consider(p, v, cs[i], thread, fates(i), dry);
      ConsiderEffect(p, v, cs[i], thread, fates(i), dry);
      if q.replies != p.replies {
        var d :| Answers(p, v, q, w, cs[i], thread, d);
        AnsweredReply(p, v, q, w, cs[i], thread, d);
      }
      RepliesOnlyGrow(q, w, cs, i + 1, thread, fates, dry);
    }
  }

  lemma ForwardAt(all: seq<Reply>, prefix: seq<Reply>, r: Reply, today: Day)
    requires Forward(all, today) && prefix + [r] <= all
    ensures Clock(prefix, today) <= r.day
  {
    assert all[|prefix|] == r;
    if prefix != [] {
      assert all[|prefix| - 1] == prefix[|prefix| - 1];
    }
  }

  lemma ForwardPrefix(all: seq<Reply>, prefix: seq<Reply>, today: Day)
    requires Forward(all, today) && prefix <= all
    ensures Forward(prefix, today)
  {
  }

  lemma {:induction false} ThreadsOnlyGrow(g: Going, s: Session, k: nat)
    requires k <= |s.threads|
    ensures g.p.replies <= Threads(g, s, k).p.replies
    decreases |s.threads| - k
  {
    hide Comments, WhatIsAsked;
    if k < |s.threads| {
      var t := s.threads[k];
      if !g.p.outOfRoom && !NothingToRead(t) {
        var asked := WhatIsAsked(t, SeenIn(g.seen, t.id));
        RepliesOnlyGrow(g.p, View(asked.seen, {}, asked.reasons), asked.candidates, 0, t.id, s.fates(k), s.dry);
      }
      ThreadsOnlyGrow(OneThread(g, t, s.fates(k), s.dry), s, k + 1);
    }
  }

  lemma {:induction false} ThreadsFitDay(before: seq<Reply>, g: Going, s: Session, k: nat, day: Day)
    requires k <= |s.threads| && g.p.room <= MAX_PER_RUN
    requires Forward(Threads(g, s, k).p.replies, s.today)
    requires DayFits(before + g.p.replies, g.p.days, g.p.room, Clock(g.p.replies, s.today), day)
    ensures var h := Threads(g, s, k);
            DayFits(before + h.p.replies, h.p.days, h.p.room, Clock(h.p.replies, s.today), day)
    decreases |s.threads| - k
  {
    hide Comments, DayFits, Forward, WhatIsAsked, Clock;
    if k < |s.threads| {
      var t := s.threads[k];
      var next := OneThread(g, t, s.fates(k), s.dry);
      if !g.p.outOfRoom && !NothingToRead(t) {
        var asked := WhatIsAsked(t, SeenIn(g.seen, t.id));
        ThreadsOnlyGrow(next, s, k + 1);
        ForwardPrefix(Threads(g, s, k).p.replies, next.p.replies, s.today);
        CommentsFitDay(before, g.p, View(asked.seen, {}, asked.reasons), asked.candidates, 0, t.id, s.fates(k), s.dry,
                       s.today, day);
      }
      ThreadsFitDay(before, next, s, k + 1, day);
    }
  }

  /** The days of the replies of a run, up to its end, go forward from its start; so do the runs. */
  ghost predicate InOrder(st: State, sessions: seq<Session>, clock: Day) {
    sessions == []
    || (var init, s := sessions[..|sessions| - 1], sessions[|sessions| - 1];
        && InOrder(st, init, clock) && EndOf(st, init, clock) <= s.today
        && Forward(Posts(SavedAfter(st, init), s), s.today))
  }

  /** The day on which the last run ended. */
  function EndOf(st: State, sessions: seq<Session>, clock: Day): Day {
    if sessions == [] then clock
    else
      var init, s := sessions[..|sessions| - 1], sessions[|sessions| - 1];
      Clock(Posts(SavedAfter(st, init), s), s.today)
  }

  lemma StartFits(log: seq<Reply>, days: Days, clock: Day, mode: Mode, today: Day, day: Day)
    requires DayFits(log, days, 0, clock, day) && clock <= today
    ensures DayFits(log, days, RunAllowance(mode, days, today), today, day)
  {
  }

  lemma LaterFits(log: seq<Reply>, days: Days, room: nat, clock: Day, later: Day, day: Day)
    requires DayFits(log, days, room, clock, day) && clock <= later
    ensures DayFits(log, days, 0, later, day)
  {
  }

  lemma RunFitsDay(st: State, s: Session, before: seq<Reply>, clock: Day, day: Day)
    requires DayFits(before, st.days, 0, clock, day) && clock <= s.today && Forward(RunOnce(st, s).p.replies, s.today)
    requires !s.dry
    ensures var g := RunOnce(st, s);
            DayFits(before + g.p.replies, g.p.days, 0, Clock(g.p.replies, s.today), day)
  {
    hide Threads, Forward, DayFits, Clock, RunAllowance;
    var g := RunOnce(st, s);
    assert before + [] == before;
    ClockStart(s.today);
    StartFits(before, st.days, clock, s.mode, s.today, day);
    if Room(st, s) > 0 {
      ThreadsFitDay(before, Begin(st, Room(st, s)), s, 0, day);
    }
    LaterFits(before + g.p.replies, g.p.days, g.p.room, Clock(g.p.replies, s.today), Clock(g.p.replies, s.today), day);
  }

  lemma ClockStart(today: Day)
    ensures Clock([], today) == today
  {
  }

  lemma ClockForward(log: seq<Reply>, today: Day)
    requires Forward(log, today)
    ensures today <= Clock(log, today)
  {
  }

  lemma {:induction false} KeptFitsDay(st: State, sessions: seq<Session>, clock: Day, day: Day)
    requires (forall d :: d > clock ==> At(st.days, d) == 0) && InOrder(st, sessions, clock)
    ensures DayFits(Standing(st, sessions), SavedAfter(st, sessions).days, 0, EndOf(st, sessions, clock), day)
  {
    if sessions != [] {
      hide RunOnce, Forward, Replies, Clock, At, DayFits;
      var init, s := sessions[..|sessions| - 1], sessions[|sessions| - 1];
      KeptFitsDay(st, init, clock, day);
      var mid, log := SavedAfter(st, init), Standing(st, init);
      assert log + [] == log;
      ClockForward(Posts(mid, s), s.today);
      if Wipes(s) {
        BlankFits(EndOf(st, sessions, clock), day);
      } else if s.ends.Dies? || s.dry {
        RunKeepsItsAllowance(mid, s);
        LaterFits(log, mid.days, 0, EndOf(st, init, clock), EndOf(st, sessions, clock), day);
      } else {
        RunFitsDay(mid, s, log, EndOf(st, init, clock), day);
      }
    }
  }

  lemma BlankFits(clock: Day, day: Day)
    ensures DayFits([], BLANK.days, 0, clock, day)
  {
  }

  /**
   Over any runs in time order, also across midnight: no UTC day gets more than six comments, plus
   those of runs that did not write their state, each of which posts two at most, and those whose
   count was lost with a torn file.
   */
  lemma DailyCapHolds(st: State, sessions: seq<Session>, clock: Day, day: Day)
    requires (forall d :: d > clock ==> At(st.days, d) == 0) && InOrder(st, sessions, clock)
    ensures Replies(RepliesBy(st, sessions, Any()), day)
         <= 6 + Replies(RepliesBy(st, sessions, Unsaved()), day) + Replies(Erased(st, sessions), day)
    ensures Replies(RepliesBy(st, sessions, Completed()), day) <= 6 + Replies(Erased(st, sessions), day)
  {
    hide RepliesBy, SavedAfter, EndOf, Erased, Standing;
    KeptFitsDay(st, sessions, clock, day);
    RepliesSplit(st, sessions, OnDay(day));
    CompletedSplits(st, sessions);
    FilterAppend(Erased(st, sessions), Standing(st, sessions), OnDay(day));
  }

  lemma RunPostsTwoAtMost(st: State, s: Session)
    ensures |Posts(st, s)| <= 2
  {
    hide RunOnce;
    RunKeepsItsAllowance(st, s);
  }

  // ----- the bound is met -----

  function Name(i: nat): Id {
    seq(i, _ => 'a')
  }

  /** Two comments by two authors under one of our posts, and both drafts pass. */
  function TwoComments(thread: Id, day: Day, ends: Ending): Session {
    Session(Fine, day, false, [Thread(thread, Own, Some(2), [], [Comment("1", "x", false, false), Comment("2", "y", false, false)], None)],
            (k: nat) => (i: nat) => Passed(Posted(day)), ends)
  }

  function BothReplies(thread: Id, day: Day): seq<Reply> {
    [Reply(thread, "1", "x", day), Reply(thread, "2", "y", day)]
  }

  lemma FirstIsAnswered(p: Progress, thread: Id, day: Day)
    requires p.room == 2 && p.tries == [] && p.answered == {} && p.replies == []
    ensures var (q, w) := Consider(p, View({}, {}, {}), Comment("1", "x", false, false), thread, Passed(Posted(day)), false);
            && q.room == 1 && q.tries == [] && q.answered == {"x"} && q.replies == [Reply(thread, "1", "x", day)]
            && q.days == CountComment(p.days, day) && q.outOfRoom == p.outOfRoom && w.seen == {"1"}
  {
  }

  lemma SecondIsAnswered(p: Progress, v: View, thread: Id, day: Day)
    requires p.room == 1 && p.tries == [] && p.answered == {"x"} && v.seen == {"1"}
    ensures var (q, w) := Consider(p, v, Comment("2", "y", false, false), thread, Passed(Posted(day)), false);
            && q.tries == [] && q.replies == p.replies + [Reply(thread, "2", "y", day)]
            && q.days == CountComment(p.days, day) && q.outOfRoom == p.outOfRoom
  {
  }

  lemma TwoAreAnswered(st: State, thread: Id, day: Day, ends: Ending)
    requires SeenIn(st.seen, thread) == {} && st.tries == [] && At(st.days, day) + 2 <= DAILY_MAX
    ensures var g := RunOnce(st, TwoComments(thread, day, ends));
            && g.p.replies == BothReplies(thread, day) && g.p.tries == []
            && At(g.p.days, day) == At(st.days, day) + 2
            && g.seen.Keys == st.seen.Keys + {thread}
  {
    var s := TwoComments(thread, day, ends);
    var g, t, fates := Begin(st, Room(st, s)), s.threads[0], s.fates(0);
    assert Room(st, s) == 2;
    assert WhatIsAsked(t, {}) == Asked(t.comments, {}, {});
    var v := View({}, {}, {});
    FirstIsAnswered(g.p, thread, day);
    var (p, w) := Consider(g.p, v, t.comments[0], thread, fates(0), false);
    SecondIsAnswered(p, w, thread, day);
    var (q, u) := Consider(p, w, t.comments[1], thread, fates(1), false);
    hide Consider, WhatIsAsked;
    assert Comments(p, w, t.comments, 1, thread, fates, false) == Comments(q, u, t.comments, 2, thread, fates, false) == (q, u);
    assert Comments(g.p, v, t.comments, 0, thread, fates, false) == (q, u);
    var h := OneThread(g, t, fates, false);
    assert h.p == q;
    assert Threads(g, s, 0) == Threads(h, s, 1) == h;
  }

  /** Some completed runs of two replies each, on one day and in different threads. */
  function Busy(n: nat, day: Day): seq<Session> {
    if n == 0 then [] else Busy(n - 1, day) + [TwoComments(Name(n - 1), day, Completes)]
  }

  /** So many replies of the day are by runs that wrote no state, so many lost their record, and all runs end that day. */
  ghost predicate Tally(st: State, sessions: seq<Session>, day: Day, any: nat, unsaved: nat, erased: nat) {
    && InOrder(st, sessions, day) && EndOf(st, sessions, day) == day
    && Replies(RepliesBy(st, sessions, Any()), day) == any
    && Replies(RepliesBy(st, sessions, Unsaved()), day) == unsaved
    && Replies(Erased(st, sessions), day) == erased
  }

  lemma BothOnDay(log: seq<Reply>, thread: Id, day: Day)
    ensures Replies(log + BothReplies(thread, day), day) == Replies(log, day) + 2
  {
    assert log + BothReplies(thread, day) == (log + [Reply(thread, "1", "x", day)]) + [Reply(thread, "2", "y", day)];
    OneReplyMore(log, Reply(thread, "1", "x", day), day);
    OneReplyMore(log + [Reply(thread, "1", "x", day)], Reply(thread, "2", "y", day), day);
  }

  /** A run on the day the runs before it ended, with all its replies on that day. */
  lemma OrderOneMore(st: State, pre: seq<Session>, s: Session, day: Day)
    requires InOrder(st, pre, day) && EndOf(st, pre, day) == day && s.today == day
    requires forall r :: r in Posts(SavedAfter(st, pre), s) ==> r.day == day
    ensures InOrder(st, pre + [s], day) && EndOf(st, pre + [s], day) == day
  {
    var all, posts := pre + [s], Posts(SavedAfter(st, pre), s);
    assert all[..|pre|] == pre && all[|pre|] == s;
    hide Posts, SavedAfter;
    assert Forward(posts, day);
    assert posts != [] ==> posts[|posts| - 1] in posts;
  }

  lemma TallyOneMore(st: State, pre: seq<Session>, s: Session, thread: Id, day: Day, any: nat, unsaved: nat, erased: nat)
    requires Tally(st, pre, day, any, unsaved, erased) && s.today == day && s.ends.Completes?
    requires Posts(SavedAfter(st, pre), s) == BothReplies(thread, day)
    ensures Tally(st, pre + [s], day, any + 2, unsaved, erased)
  {
    var all := pre + [s];
    OrderOneMore(st, pre, s, day);
    BothOnDay(RepliesBy(st, pre, Any()), thread, day);
    hide Posts, SavedAfter, Replies, InOrder, EndOf, BothReplies;
    assert all[..|pre|] == pre && all[|pre|] == s;
    assert RepliesBy(st, all, Any()) == RepliesBy(st, pre, Any()) + BothReplies(thread, day);
    assert RepliesBy(st, all, Unsaved()) == RepliesBy(st, pre, Unsaved()) + [] == RepliesBy(st, pre, Unsaved());
    assert Erased(st, all) == Erased(st, pre);
  }

  /** What some such runs leave: the day's count, and threads of their names. */
  ghost predicate Busied(st: State, n: nat, day: Day) {
    st.tries == [] && At(st.days, day) == 2 * n && forall t :: t in st.seen ==> |t| < n
  }

  lemma OneBusyRun(st: State, n: nat, day: Day)
    requires Busied(st, n, day) && n < 3
    ensures var s := TwoComments(Name(n), day, Completes);
            Posts(st, s) == BothReplies(Name(n), day) && Busied(Saved(st, s), n + 1, day)
  {
    assert |Name(n)| == n;
    assert Name(n) !in st.seen;
    TwoAreAnswered(st, Name(n), day, Completes);
    hide RunOnce, BothReplies, Name, At;
    var t := Saved(st, TwoComments(Name(n), day, Completes));
    forall x | x in t.seen ensures |x| < n + 1 {
      assert x in st.seen.Keys + {Name(n)};
    }
  }

  lemma {:induction false} BusyDay(st: State, pre: seq<Session>, n: nat, day: Day, any: nat, unsaved: nat, erased: nat)
    requires n <= 3 && SavedAfter(st, pre) == BLANK && Tally(st, pre, day, any, unsaved, erased)
    ensures Tally(st, pre + Busy(n, day), day, any + 2 * n, unsaved, erased)
    ensures Busied(SavedAfter(st, pre + Busy(n, day)), n, day)
  {
    hide Tally, Posts, Saved, Busied, SavedAfter;
    if n == 0 {
      assert pre + Busy(n, day) == pre;
      BlankIsBusied(day);
    } else {
      BusyDay(st, pre, n - 1, day, any, unsaved, erased);
      var init, s := pre + Busy(n - 1, day), TwoComments(Name(n - 1), day, Completes);
      assert pre + Busy(n, day) == init + [s];
      hide Busy, Name;
      OneBusyRun(SavedAfter(st, init), n - 1, day);
      TallyOneMore(st, init, s, Name(n - 1), day, any + 2 * (n - 1), unsaved, erased);
      SavedOneMore(st, init, s);
    }
  }

  lemma BlankIsBusied(day: Day)
    ensures Busied(BLANK, 0, day)
  {
  }

  lemma SavedOneMore(st: State, init: seq<Session>, s: Session)
    ensures SavedAfter(st, init + [s]) == Saved(SavedAfter(st, init), s)
  {
    assert (init + [s])[..|init|] == init;
  }

  lemma DeadRunPosts(n: nat, day: Day)
    requires n <= MAX_PER_RUN
    ensures var dead := TwoComments(Name(0), day, Dies(n, 0));
            && Posts(BLANK, dead) == BothReplies(Name(0), day)[..n] && Saved(BLANK, dead) == BLANK
            && Replies(Posts(BLANK, dead), day) == n
  {
    TwoAreAnswered(BLANK, Name(0), day, Dies(n, 0));
    hide RunOnce;
    var both := BothReplies(Name(0), day);
    assert both[..2] == both;
    forall r | r in both[..n] ensures OnDay(day)(r) {
    }
    FilterAll(both[..n], OnDay(day));
  }

  /** A dead run and three full ones: more than six comments on one day, as many as the bound allows. */
  lemma DeadRunBreaksCap(n: nat, day: Day)
    requires n <= 2
    ensures var sessions := [TwoComments(Name(0), day, Dies(n, 0))] + Busy(3, day);
            Tally(BLANK, sessions, day, 6 + n, n, 0)
  {
    var dead := TwoComments(Name(0), day, Dies(n, 0));
    DeadRunPosts(n, day);
    NoRuns(BLANK, day);
    hide Tally, Busy, Posts, Saved, SavedAfter;
    TallyDead(BLANK, [], dead, day, 0, 0, 0, n);
    SavedOneMore(BLANK, [], dead);
    assert [] + [dead] == [dead];
    BusyDay(BLANK, [dead], 3, day, n, n, 0);
  }

  lemma TallyDead(st: State, pre: seq<Session>, dead: Session, day: Day, any: nat, unsaved: nat, erased: nat, n: nat)
    requires Tally(st, pre, day, any, unsaved, erased) && dead.ends.Dies? && dead.today == day
    requires forall r :: r in Posts(SavedAfter(st, pre), dead) ==> r.day == day
    requires Replies(Posts(SavedAfter(st, pre), dead), day) == n
    ensures Tally(st, pre + [dead], day, any + n, unsaved + n, erased)
  {
    var all, posts := pre + [dead], Posts(SavedAfter(st, pre), dead);
    OrderOneMore(st, pre, dead, day);
    FilterAppend(RepliesBy(st, pre, Any()), posts, OnDay(day));
    FilterAppend(RepliesBy(st, pre, Unsaved()), posts, OnDay(day));
    hide Posts, SavedAfter, InOrder, EndOf;
    assert all[..|pre|] == pre && all[|pre|] == dead;
    assert RepliesBy(st, all, Any()) == RepliesBy(st, pre, Any()) + posts;
    assert RepliesBy(st, all, Unsaved()) == RepliesBy(st, pre, Unsaved()) + posts;
    assert Erased(st, all) == Erased(st, pre);
  }

  lemma NoRuns(st: State, day: Day)
    ensures Tally(st, [], day, 0, 0, 0) && SavedAfter(st, []) == st
  {
  }

  /** Three full runs before and three after a torn file: twelve comments on one day by completed runs. */
  lemma TornFileBreaksCap(day: Day)
    ensures var sessions := (Busy(3, day) + [TornRun(day)]) + Busy(3, day);
            Tally(BLANK, sessions, day, 12, 0, 6)
  {
    var six, torn := Busy(3, day), TornRun(day);
    NoRuns(BLANK, day);
    TornPostsNothing(SavedAfter(BLANK, six), day);
    hide Tally, Busy, Busied, Posts, Saved, SavedAfter, TornRun;
    assert [] + six == six;
    BusyDay(BLANK, [], 3, day, 0, 0, 0);
    TallyTorn(BLANK, six, torn, day, DAILY_MAX);
    SavedOneMore(BLANK, six, torn);
    BusyDay(BLANK, six + [torn], 3, day, DAILY_MAX, 0, DAILY_MAX);
  }

  lemma TornPostsNothing(st: State, day: Day)
    ensures Posts(st, TornRun(day)) == [] && Saved(st, TornRun(day)) == BLANK
    ensures Wipes(TornRun(day)) && TornRun(day).today == day
  {
  }

  lemma TallyTorn(st: State, pre: seq<Session>, torn: Session, day: Day, any: nat)
    requires Tally(st, pre, day, any, 0, 0) && Wipes(torn) && torn.today == day && Posts(SavedAfter(st, pre), torn) == []
    ensures Tally(st, pre + [torn], day, any, 0, any)
  {
    var all := pre + [torn];
    RepliesSplit(st, pre, OnDay(day));
    OrderOneMore(st, pre, torn, day);
    hide Posts, SavedAfter, InOrder, EndOf;
    assert all[..|pre|] == pre && all[|pre|] == torn;
    assert RepliesBy(st, pre, Any()) + [] == RepliesBy(st, pre, Any());
    assert RepliesBy(st, pre, Unsaved()) + [] == RepliesBy(st, pre, Unsaved());
  }
}
