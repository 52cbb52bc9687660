/** The caps of the reply radar are met: runs that send as many drafts as the bounds allow. */
module RadarCapsMet {
  import opened Common
  import opened StableSort
  import opened RadarClaims
  import opened Radar
  import opened RadarLaws
  import opened RadarRuns
  import opened RadarCaps

  /** A mention that passes every filter, with an id of length n. */
  function Plain(n: nat): Post {
    Post(seq(n, _ => 'a'), 0, "", Mention, 0, 0, false, None, false, false, false, None, true)
  }

  function ThreePosts(n: nat): seq<Post> {
    [Plain(n), Plain(n + 1), Plain(n + 2)]
  }

  /** A run over three mentions, for each of which a draft passes at one moment. */
  function Batch(n: nat, start: int, at: int, ends: Ending): Session {
    Session(start, at, DAILY_MAX, false, false, ThreePosts(n), (i: nat) => Text([], true), (i: nat) => at, {}, ends)
  }

  ghost predicate AllPass(r: Session, at: int) {
    forall i: nat :: r.answers(i) == Text([], true) && r.clock(i) == at
  }

  ghost predicate Dated(drafts: seq<Draft>, day: Day, at: int) {
    forall d :: d in drafts ==> d.day == day && d.at == at
  }

  lemma {:induction false} AllAreDrafted(p: Progress, ordered: seq<Post>, i: nat, room: int, r: Session, at: int)
    requires i <= |ordered| && p.made + |ordered| - i <= room && AllPass(r, at)
    requires (forall t :: t in ordered ==> t.source == Mention) && Dated(p.drafts, Today(r), at)
    ensures var q := Walk(p, ordered, i, room, r);
            |q.drafts| == |p.drafts| + |ordered| - i && Dated(q.drafts, Today(r), at)
    decreases |ordered| - i
  {
    hide Visit, Today, Lapse, AllPass, Dated;
    if i < |ordered| {
      assert ordered[i] in ordered;
      MentionIsDrafted(p, ordered[i], i, r, at);
      AllAreDrafted(Visit(p, ordered[i], i, r), ordered, i + 1, room, r, at);
    }
  }

  lemma MentionIsDrafted(p: Progress, t: Post, i: nat, r: Session, at: int)
    requires t.source == Mention && AllPass(r, at) && Dated(p.drafts, Today(r), at)
    ensures var q := Visit(p, t, i, r);
            q.made == p.made + 1 && |q.drafts| == |p.drafts| + 1 && Dated(q.drafts, Today(r), at)
  {
    hide Remember, MarkSeen, Book;
    assert r.answers(i) == Text([], true) && r.clock(i) == at;
  }

  /** A run marks only posts it was offered. */
  lemma {:induction false} SeenIsOffered(p: Progress, ordered: seq<Post>, i: nat, room: int, r: Session, n: nat)
    requires i <= |ordered| && (forall id :: id in p.state.seen ==> |id| < n) && forall t :: t in ordered ==> |t.id| < n
    ensures forall id :: id in Walk(p, ordered, i, room, r).state.seen ==> |id| < n
    decreases |ordered| - i
  {
    if i < |ordered| {
      assert ordered[i] in ordered;
      hide Visit;
      if p.made >= room {
        LapsedIsOffered(p, ordered[i..], r.dry, n);
      } else {
        VisitSees(p, ordered[i], i, r);
        SeenIsOffered(Visit(p, ordered[i], i, r), ordered, i + 1, room, r, n);
      }
    }
  }

  lemma VisitSees(p: Progress, t: Post, i: nat, r: Session)
    ensures forall id :: id in Visit(p, t, i, r).state.seen ==> id in p.state.seen || id == t.id
  {
    hide Remember, AuthorCapped, IsFinal, Conflict, CountDraft, CountAuthor;
    if r.answers(i).Text? {
      BookKeeps(Spend(p.state, r.answers(i), r.clock(i)), t, Today(r));
    }
  }

  lemma {:induction false} LapsedIsOffered(p: Progress, rest: seq<Post>, dry: bool, n: nat)
    requires (forall id :: id in p.state.seen ==> |id| < n) && forall t :: t in rest ==> |t.id| < n
    ensures forall id :: id in Lapse(p, rest, dry).state.seen ==> |id| < n
    decreases |rest|
  {
    if rest != [] {
      assert rest[0] in rest;
      LapsedIsOffered(Skip(p, DailyCap, rest[0].id, !dry), rest[1..], dry, n);
    }
  }

  lemma {:induction false} NoListId(fetched: seq<Post>)
    requires forall t :: t in fetched ==> t.source != TargetList
    ensures NewestListId(fetched).None?
  {
    if fetched != [] {
      assert fetched[|fetched| - 1] in fetched;
      NoListId(fetched[..|fetched| - 1]);
    }
  }

  lemma ThreeAreOffered(st: State, n: nat, start: int, at: int, ends: Ending)
    requires DraftedOn(st, DayOf(start)) == 0 && forall id :: id in st.seen ==> |id| < n
    ensures var r := Batch(n, start, at, ends);
            Offered(st, r) == ThreePosts(n) && Room(st, r) == DAILY_MAX && Opened(st, r) == st && !Idle(st, r)
  {
    var r, three := Batch(n, start, at, ends), ThreePosts(n);
    hide DraftedOn;
    NoListId(three);
    forall t | t in three ensures IsCandidate(st.seen, Since(st, start))(t) {
      assert |t.id| >= n;
    }
    FilterAll(three, IsCandidate(st.seen, Since(st, start)));
    SortTied(three, RanksBefore);
    SortTied(three, MoreViews);
  }

  /** Such a run drafts for all three, and leaves the counters of later days alone. */
  lemma ThreeAreDrafted(st: State, n: nat, start: int, at: int, ends: Ending, later: Day)
    requires DraftedOn(st, DayOf(start)) == 0 && later > DayOf(start) && forall id :: id in st.seen ==> |id| < n
    ensures var q := RunOnce(st, Batch(n, start, at, ends));
            && |q.drafts| == DAILY_MAX && (forall d :: d in q.drafts ==> d.day == DayOf(start) && d.at == at)
            && (forall id :: id in q.state.seen ==> |id| < n + 3)
            && DraftedOn(q.state, later) == DraftedOn(st, later)
  {
    var r := Batch(n, start, at, ends);
    ThreeAreOffered(st, n, start, at, ends);
    forall t | t in ThreePosts(n) ensures t.source == Mention && |t.id| < n + 3 {
    }
    AllAreDrafted(Begin(st), ThreePosts(n), 0, DAILY_MAX, r, at);
    SeenIsOffered(Begin(st), ThreePosts(n), 0, DAILY_MAX, r, n + 3);
    WalkOtherDay(Begin(st), ThreePosts(n), 0, DAILY_MAX, r, later, "a");
    RunCounters(st, r, later, "a");
    hide Walk, Offered, Room, Opened, ThreePosts, DraftedOn, Idle;
  }

  /** What it sends, all of it booked on the day it began and dated when it was sent. */
  lemma BatchSends(st: State, n: nat, start: int, at: int, ends: Ending)
    requires DraftedOn(st, DayOf(start)) == 0 && forall id :: id in st.seen ==> |id| < n
    ensures var sent := Drafts(st, Batch(n, start, at, ends));
            && |sent| == (if ends.Dies? && ends.drafts < DAILY_MAX then ends.drafts else DAILY_MAX)
            && Filter(sent, OnDay(DayOf(start))) == sent && Filter(sent, OnDate(DayOf(at))) == sent
  {
    ThreeAreDrafted(st, n, start, at, ends, DayOf(start) + 1);
    hide RunOnce, DayOf, DraftedOn;
    var all, sent := RunOnce(st, Batch(n, start, at, ends)).drafts, Drafts(st, Batch(n, start, at, ends));
    assert forall d :: d in sent ==> d in all;
    FilterAll(sent, OnDay(DayOf(start)));
    FilterAll(sent, OnDate(DayOf(at)));
  }

  lemma BatchIs(n: nat, start: int, at: int, ends: Ending)
    ensures var r := Batch(n, start, at, ends);
            r.start == start && r.finish == at && r.ends == ends && !r.dry && forall i: nat :: r.clock(i) == at
  {
  }

  lemma TwoInOrder(r: Session, s: Session)
    requires r.start <= r.finish <= s.start == s.finish
    requires (forall i: nat :: r.clock(i) == r.finish) && forall i: nat :: s.clock(i) == s.finish
    ensures InOrder([r, s])
  {
  }

  /** Two such runs, the first over midnight: its drafts are booked on the day before. */
  lemma TwoBatches(start: int, at: int, later: int, date: Day)
    requires start <= at <= later && DayOf(start) == date - 1 && DayOf(at) == DayOf(later) == date
    ensures var r, s := Batch(0, start, at, Completes), Batch(3, later, later, Completes);
            InOrder([r, s]) && Filter(Drafts(BLANK, r), OnDate(date)) == Drafts(BLANK, r) && |Drafts(BLANK, r)| == DAILY_MAX
            && Filter(Drafts(Saved(BLANK, r), s), OnDate(date)) == Drafts(Saved(BLANK, r), s) && |Drafts(Saved(BLANK, r), s)| == DAILY_MAX
  {
    var r, s := Batch(0, start, at, Completes), Batch(3, later, later, Completes);
    hide DayOf;
    BatchIs(0, start, at, Completes);
    BatchIs(3, later, later, Completes);
    TwoInOrder(r, s);
    ThreeAreDrafted(BLANK, 0, start, at, Completes, date);
    BatchSends(BLANK, 0, start, at, Completes);
    assert DraftedOn(BLANK, date) == 0;
    hide RunOnce, Filter, InOrder, Batch, Drafts, DraftedOn;
    BatchSends(Saved(BLANK, r), 3, later, later, Completes);
  }

  /** What two completed runs sent, where nothing was lost. */
  lemma TwoCount(r: Session, s: Session, date: Day)
    requires r.ends.Completes? && s.ends.Completes? && !r.dry && !s.dry
    requires Filter(Drafts(BLANK, r), OnDate(date)) == Drafts(BLANK, r)
    requires Filter(Drafts(Saved(BLANK, r), s), OnDate(date)) == Drafts(Saved(BLANK, r), s)
    ensures |Filter(SentBy(BLANK, [r, s], Completed()), OnDate(date))| == |Drafts(BLANK, r)| + |Drafts(Saved(BLANK, r), s)|
    ensures Erased(BLANK, [r, s]) == []
  {
    NothingErased(BLANK, [r, s]);
    hide Drafts, Saved, Filter, OnDate, SentBy, Erased;
    FilterAppend(Drafts(BLANK, r), Drafts(Saved(BLANK, r), s), OnDate(date));
    TwoSent(r, s);
  }

  /** One run under way at midnight and one after it: six drafts on one date. */
  lemma SixOverMidnight(date: Day) returns (r: Session, s: Session)
    ensures InOrder([r, s]) && |Filter(SentBy(BLANK, [r, s], Completed()), OnDate(date))| == 6
    ensures Erased(BLANK, [r, s]) == []
  {
    hide InOrder, Drafts, Saved, Filter, SentBy, Erased, OnDate;
    var midnight := date * 86400;
    r, s := Batch(0, midnight - 10, midnight + 10, Completes), Batch(3, midnight + 20, midnight + 20, Completes);
    Midnight(date);
    TwoBatches(midnight - 10, midnight + 10, midnight + 20, date);
    TwoCount(r, s, date);
  }

  lemma Midnight(date: Day)
    ensures DayOf(date * 86400 - 10) == date - 1 && DayOf(date * 86400 + 10) == date == DayOf(date * 86400 + 20)
  {
  }

  lemma TwoSent(r: Session, s: Session)
    requires r.ends.Completes? && s.ends.Completes? && !r.dry && !s.dry
    ensures SentBy(BLANK, [r, s], Completed()) == Drafts(BLANK, r) + Drafts(Saved(BLANK, r), s)
  {
    hide Drafts, Saved;
    assert [r, s][..1] == [r] && [r][..0] == [];
    assert RunAll(BLANK, []) == BLANK && RunAll(BLANK, [r]) == Saved(BLANK, r);
    hide RunAll;
    var none: seq<Draft> := [];
    assert SentBy(BLANK, [], Completed()) == none;
    assert none + Drafts(BLANK, r) == Drafts(BLANK, r);
  }

  /** What a dead run and a completed one sent on a day. */
  lemma DeadAndAgain(dead: Session, again: Session, day: Day)
    requires dead.ends.Dies? && again.ends.Completes? && !dead.dry && !again.dry
    requires Filter(Drafts(BLANK, dead), OnDay(day)) == Drafts(BLANK, dead)
    requires Filter(Drafts(BLANK, again), OnDay(day)) == Drafts(BLANK, again)
    ensures |Filter(SentBy(BLANK, [dead, again], Any()), OnDay(day))| == |Drafts(BLANK, dead)| + |Drafts(BLANK, again)|
    ensures |Filter(SentBy(BLANK, [dead, again], Unsaved()), OnDay(day))| == |Drafts(BLANK, dead)|
    ensures Erased(BLANK, [dead, again]) == []
  {
    NothingErased(BLANK, [dead, again]);
    DeadRunIsForgotten(BLANK, dead, again);
    hide Drafts, Filter, OnDay, SentBy, Erased;
    FilterAppend(Drafts(BLANK, dead), Drafts(BLANK, again), OnDay(day));
    SentUnsaved(dead, again);
  }

  /** A run that dies after n drafts, and one that completes: 3 + n drafts on one day. */
  lemma DeadRunBreaksCap(n: nat, now: int)
    requires n <= 3
    ensures var sessions := [Batch(0, now, now, Dies(n)), Batch(0, now, now, Completes)];
            && InOrder(sessions) && Erased(BLANK, sessions) == []
            && |Filter(SentBy(BLANK, sessions, Any()), OnDay(DayOf(now)))| == 3 + n
            && |Filter(SentBy(BLANK, sessions, Unsaved()), OnDay(DayOf(now)))| == n
  {
    hide DayOf, InOrder, Drafts, Filter, SentBy, Erased, OnDay;
    var dead, again := Batch(0, now, now, Dies(n)), Batch(0, now, now, Completes);
    TwoInOrder(dead, again);
    BlankIsFresh(DayOf(now));
    BatchSends(BLANK, 0, now, now, Dies(n));
    BatchSends(BLANK, 0, now, now, Completes);
    DeadAndAgain(dead, again, DayOf(now));
  }

  lemma BlankIsFresh(day: Day)
    ensures DraftedOn(BLANK, day) == 0 && forall id :: id in BLANK.seen ==> |id| < 0
  {
  }

  lemma SentUnsaved(dead: Session, again: Session)
    requires dead.ends.Dies? && again.ends.Completes? && !dead.dry && !again.dry
    ensures SentBy(BLANK, [dead, again], Unsaved()) == Drafts(BLANK, dead)
  {
    hide Drafts;
    assert [dead, again][..1] == [dead] && [dead][..0] == [];
    assert RunAll(BLANK, []) == BLANK;
    hide RunAll;
    var none: seq<Draft> := [];
    assert SentBy(BLANK, [], Unsaved()) == none;
    assert none + Drafts(BLANK, dead) == Drafts(BLANK, dead) == Drafts(BLANK, dead) + none;
  }

  /** A full run before and one after a torn file: six drafts on one day by completed runs. */
  lemma TornFileBreaksCap(now: int)
    ensures var run := Batch(0, now, now, Completes);
            var sessions := [run, TornRun(now), run];
            && InOrder(sessions) && SentBy(BLANK, sessions, Unsaved()) == []
            && |Filter(SentBy(BLANK, sessions, Any()), OnDay(DayOf(now)))| == 6
            && |Filter(Erased(BLANK, sessions), OnDay(DayOf(now)))| == 3
  {
    var run, torn := Batch(0, now, now, Completes), TornRun(now);
    BatchSends(BLANK, 0, now, now, Completes);
    ThreeMoments(run, torn, now);
    TornSendsNothing(Saved(BLANK, run), now);
    TornBetween(run, torn);
    hide RunOnce, DayOf, SentBy, InOrder, Filter, Drafts, Erased, Saved, TornRun;
    FilterAppend(Drafts(BLANK, run), Drafts(BLANK, run), OnDay(DayOf(now)));
    SentSplits(BLANK, [run, torn, run], OnDay(DayOf(now)));
    NoDrafts(OnDay(DayOf(now)));
  }

  lemma NoDrafts(keep: Draft -> bool)
    ensures Filter([], keep) == []
  {
  }
}
