/**
 Sequences of runs of the reply radar: claims stay apart, what a dry run leaves behind, and
 what is forgotten when a run dies before it has written its state or while it writes it.
 */
module RadarRuns {
  import opened Common
  import opened StableSort
  import opened RadarClaims
  import opened Radar
  import opened RadarLaws

  // ----- sequences of runs -----

  ghost predicate ClockMoves(r: Session) {
    && r.start <= r.finish
    && (forall i: nat :: r.start <= r.clock(i) <= r.finish)
    && (forall i: nat, j: nat :: i <= j ==> r.clock(i) <= r.clock(j))
  }

  /** The sessions follow one another in time, and each reads its clock in order. */
  ghost predicate InOrder(sessions: seq<Session>) {
    && (forall k :: 0 <= k < |sessions| ==> ClockMoves(sessions[k]))
    && (forall k, l :: 0 <= k < l < |sessions| ==> sessions[k].finish <= sessions[l].start)
  }

  function RunAll(st: State, sessions: seq<Session>): State {
    if sessions == [] then st else Saved(RunAll(st, sessions[..|sessions| - 1]), sessions[|sessions| - 1])
  }

  /** The drafts sent by the runs that `which` selects; a dry run sends none. */
  function SentBy(st: State, sessions: seq<Session>, which: Session -> bool): seq<Draft> {
    if sessions == [] then []
    else
      var init, r := sessions[..|sessions| - 1], sessions[|sessions| - 1];
      SentBy(st, init, which) + (if which(r) && !r.dry then Drafts(RunAll(st, init), r) else [])
  }

  function Any(): Session -> bool {
    (r: Session) => true
  }

  function Completed(): Session -> bool {
    (r: Session) => r.ends.Completes?
  }

  /** Runs whose state did not reach the file. */
  function Unsaved(): Session -> bool {
    (r: Session) => !r.ends.Completes?
  }

  /** The drafts on record: those of completed runs since the state file was last torn. */
  function Standing(st: State, sessions: seq<Session>): seq<Draft> {
    if sessions == [] then []
    else
      var init, r := sessions[..|sessions| - 1], sessions[|sessions| - 1];
      if r.ends.Tears? then []
      else Standing(st, init) + (if r.ends.Completes? && !r.dry then Drafts(RunAll(st, init), r) else [])
  }

  /** The drafts whose record a torn state file lost. */
  function Erased(st: State, sessions: seq<Session>): seq<Draft> {
    if sessions == [] then []
    else
      var init, r := sessions[..|sessions| - 1], sessions[|sessions| - 1];
      if r.ends.Tears? then SentBy(st, init, Completed()) else Erased(st, init)
  }

  /** The drafts of completed runs are those whose record is lost, then those on record. */
  lemma {:induction false} CompletedSplits(st: State, sessions: seq<Session>)
    ensures SentBy(st, sessions, Completed()) == Erased(st, sessions) + Standing(st, sessions)
  {
    if sessions != [] {
      hide Drafts, RunAll;
      var init, r := sessions[..|sessions| - 1], sessions[|sessions| - 1];
      CompletedSplits(st, init);
      var drafts := if r.ends.Completes? && !r.dry then Drafts(RunAll(st, init), r) else [];
      Regroup(SentBy(st, init, Completed()), Erased(st, init), Standing(st, init), drafts);
    }
  }

  lemma Regroup(all: seq<Draft>, erased: seq<Draft>, standing: seq<Draft>, more: seq<Draft>)
    requires all == erased + standing
    ensures all + more == erased + (standing + more) && all + [] == all
  {
  }

  lemma {:induction false} NothingErased(st: State, sessions: seq<Session>)
    requires forall r :: r in sessions ==> !r.ends.Tears?
    ensures Erased(st, sessions) == []
  {
    if sessions != [] {
      NothingErased(st, sessions[..|sessions| - 1]);
    }
  }

  // ----- claims stay 48 hours apart -----

  /** The claims spent by every draft that passed the gate. */
  function Spent(drafts: seq<Draft>): seq<Use> {
    if drafts == [] then []
    else
      var d := drafts[|drafts| - 1];
      Spent(drafts[..|drafts| - 1]) + (if d.passed then [Use(d.at, d.marks)] else [])
  }

  /** The claims spent in completed runs, dry runs included, since the state file was last torn. */
  function AllSpent(st: State, sessions: seq<Session>): seq<Use> {
    if sessions == [] then []
    else
      var init, r := sessions[..|sessions| - 1], sessions[|sessions| - 1];
      if r.ends.Tears? then []
      else AllSpent(st, init) + (if r.ends.Completes? then Spent(Drafts(RunAll(st, init), r)) else [])
  }

  lemma VisitSpacing(p: Progress, t: Post, i: nat, r: Session, before: seq<Use>, clock: int)
    requires Spaced(before + Spent(p.drafts)) && Kept(p.state.claims, before + Spent(p.drafts), clock)
    requires clock <= r.clock(i) && r.start <= r.clock(i)
    ensures var q := Visit(p, t, i, r);
            Spaced(before + Spent(q.drafts)) && Kept(q.state.claims, before + Spent(q.drafts), r.clock(i))
  {
    hide Spaced, Kept, Conflict, Remember, MarkSeen, AuthorCapped, IsFinal, Book;
    var q := Visit(p, t, i, r);
    VisitClaims(p, t, i, r);
    KeptLater(p.state.claims, before + Spent(p.drafts), clock, r.clock(i));
    if q.made > p.made {
      var d := q.drafts[|p.drafts|];
      assert q.drafts[..|p.drafts|] == p.drafts;
      if d.passed {
        DraftKeepsSpacing(p.state.claims, before + Spent(p.drafts), d.marks, r.start, clock, r.clock(i), r.blocked);
        assert before + Spent(q.drafts) == (before + Spent(p.drafts)) + [Use(d.at, d.marks)];
      } else {
        assert Spent(q.drafts) == Spent(p.drafts) + [] == Spent(p.drafts);
      }
    }
  }

  /** Only a draft that passes touches the claims. */
  lemma VisitClaims(p: Progress, t: Post, i: nat, r: Session)
    ensures var q := Visit(p, t, i, r);
            q.state.claims == if q.passed > p.passed then Remember(p.state.claims, r.answers(i).marks, r.clock(i))
                              else p.state.claims
  {
    hide Remember, Conflict, AuthorCapped, IsFinal, LastSeen, Book;
    if r.answers(i).Text? {
      BookKeeps(Spend(p.state, r.answers(i), r.clock(i)), t, Today(r));
    }
  }

  lemma {:induction false} WalkSpacing(p: Progress, ordered: seq<Post>, i: nat, room: int, r: Session, before: seq<Use>, clock: int)
    requires i <= |ordered| && ClockMoves(r) && r.start <= clock <= r.finish && clock <= r.clock(i)
    requires Spaced(before + Spent(p.drafts)) && Kept(p.state.claims, before + Spent(p.drafts), clock)
    ensures var q := Walk(p, ordered, i, room, r);
            Spaced(before + Spent(q.drafts)) && Kept(q.state.claims, before + Spent(q.drafts), r.finish)
    decreases |ordered| - i
  {
    hide Spaced, Kept, Visit, Lapse, Spent;
    if i == |ordered| {
      KeptLater(p.state.claims, before + Spent(p.drafts), clock, r.finish);
    } else if p.made >= room {
      LapseAccounts(p, ordered[i..], r.dry);
      KeptLater(p.state.claims, before + Spent(p.drafts), clock, r.finish);
    } else {
      VisitSpacing(p, ordered[i], i, r, before, clock);
      WalkSpacing(Visit(p, ordered[i], i, r), ordered, i + 1, room, r, before, r.clock(i));
    }
  }

  lemma {:induction false} SpentPrefix(drafts: seq<Draft>, n: nat)
    requires n <= |drafts|
    ensures Spent(drafts[..n]) <= Spent(drafts)
  {
    if n < |drafts| {
      assert drafts[..|drafts| - 1][..n] == drafts[..n];
      SpentPrefix(drafts[..|drafts| - 1], n);
    } else {
      assert drafts[..n] == drafts;
    }
  }

  lemma SpacedPrefix(all: seq<Use>, before: seq<Use>, part: seq<Use>, whole: seq<Use>)
    requires all == before + whole && Spaced(all) && part <= whole
    ensures Spaced(before + part)
  {
    assert before + part <= all;
  }

  /** What one run does to the spacing: its drafts keep apart from each other and from all that is on the book. */
  lemma RunSpacing(st: State, r: Session, before: seq<Use>)
    requires ClockMoves(r) && Spaced(before) && Kept(st.claims, before, r.start)
    ensures Spaced(before + Spent(Drafts(st, r)))
    ensures Kept(RunOnce(st, r).state.claims, before + Spent(RunOnce(st, r).drafts), r.finish)
  {
    hide Spaced, Kept, Walk, Offered;
    assert before + Spent(Begin(Opened(st, r)).drafts) == before;
    WalkSpacing(Begin(Opened(st, r)), Offered(st, r), 0, Room(st, r), r, before, r.start);
    var drafts := RunOnce(st, r).drafts;
    if r.ends.Dies? && r.ends.drafts < |drafts| {
      SpentPrefix(drafts, r.ends.drafts);
      SpacedPrefix(before + Spent(drafts), before, Spent(drafts[..r.ends.drafts]), Spent(drafts));
    }
  }

  lemma {:induction false} BookIsKept(st: State, sessions: seq<Session>, clock: int)
    requires InOrder(sessions) && (sessions != [] ==> sessions[|sessions| - 1].finish <= clock)
    ensures Spaced(AllSpent(st, sessions)) && Kept(RunAll(st, sessions).claims, AllSpent(st, sessions), clock)
  {
    hide Spaced, Kept, RunOnce;
    if sessions == [] {
      NothingSpent(st.claims, clock);
    } else {
      var init, r := sessions[..|sessions| - 1], sessions[|sessions| - 1];
      BookIsKept(st, init, r.start);
      var before, mid := AllSpent(st, init), RunAll(st, init);
      if r.ends.Tears? {
        NothingSpent(BLANK.claims, clock);
      } else if r.ends.Dies? {
        assert before + [] == before;
        KeptLater(mid.claims, before, r.start, clock);
      } else {
        RunSpacing(mid, r, before);
        KeptLater(RunOnce(mid, r).state.claims, AllSpent(st, sessions), r.finish, clock);
      }
    }
  }

  lemma NothingSpent(c: Claims, clock: int)
    ensures Spaced([]) && Kept(c, [], clock)
  {
  }

  /**
   Over any runs in time order: the gate-passing drafts of a run, however it ends, and those of all
   completed runs before it since the state file was last torn keep 48 hours apart wherever they
   share a claim. The check looks at the run's start, the record is made later, and pruning the book
   on reading and on writing never loses a claim that still counts. Only what a dead run sent and
   what a torn file held is forgotten.
   */
  lemma ClaimsStayApart(st: State, sessions: seq<Session>, r: Session)
    requires InOrder(sessions + [r])
    ensures Spaced(AllSpent(st, sessions) + Spent(Drafts(RunAll(st, sessions), r)))
  {
    hide Spaced, Kept, RunOnce, Drafts;
    assert (sessions + [r])[|sessions|] == r;
    forall k | 0 <= k < |sessions| ensures sessions[k] == (sessions + [r])[k] {
    }
    BookIsKept(st, sessions, r.start);
    RunSpacing(RunAll(st, sessions), r, AllSpent(st, sessions));
  }

  lemma {:induction false} SpentHolds(drafts: seq<Draft>, d: Draft)
    requires d in drafts && d.passed
    ensures Use(d.at, d.marks) in Spent(drafts)
  {
    var init, last := drafts[..|drafts| - 1], drafts[|drafts| - 1];
    assert drafts == init + [last];
    if d != last {
      SpentHolds(init, d);
    }
  }

  /**
   A claim spent in a completed run blocks every draft with it for 48 hours, through all runs
   in between that do not tear the file; a dry run's draft blocks it just the same although it
   was never sent.
   */
  lemma SpentClaimBlocks(st: State, sessions: seq<Session>, u: Use, m: Mark, marks: seq<Mark>, start: int, wall: int)
    requires InOrder(sessions) && (sessions != [] ==> sessions[|sessions| - 1].finish <= start)
    requires u in AllSpent(st, sessions) && m in u.marks && m in marks && start < u.at + 48 * 3600
    ensures Conflict(RunAll(st, sessions).claims, marks, start, wall, {})
  {
    BookIsKept(st, sessions, start);
    var c, log := RunAll(st, sessions).claims, AllSpent(st, sessions);
    hide RunAll, AllSpent, Conflict;
    var i :| 0 <= i < |log| && log[i] == u;
    assert Covers(c, log[i], start);
    CoveredUseClashes(c, u.at, marks, m, start, wall, {});
  }

  /** Each draft that passed in a completed run is such a use. */
  lemma PassedDraftIsSpent(st: State, sessions: seq<Session>, r: Session, d: Draft)
    requires r.ends.Completes? && d in Drafts(RunAll(st, sessions), r) && d.passed
    ensures Use(d.at, d.marks) in AllSpent(st, sessions + [r])
  {
    hide RunOnce;
    assert (sessions + [r])[..|sessions|] == sessions;
    SpentHolds(Drafts(RunAll(st, sessions), r), d);
  }

  /** Over any runs: every draft sent answers somebody else's post, with words, not for sale, in our language or on our subject. */
  lemma {:induction false} SentAnswersOthers(st: State, sessions: seq<Session>, d: Draft)
    requires d in SentBy(st, sessions, Any())
    ensures !d.post.ours && !d.post.retweet && !d.post.wordless && d.post.lang != Some("zxx") && !d.post.ad
    ensures d.post.lang.None? || d.post.lang == Some("en") || d.post.lang == Some("und") || d.post.onTopic
  {
    hide RunOnce;
    var init, r := sessions[..|sessions| - 1], sessions[|sessions| - 1];
    if d in SentBy(st, init, Any()) {
      SentAnswersOthers(st, init, d);
    } else {
      assert d in RunOnce(RunAll(st, init), r).drafts;
      DraftsAnswerWorthwhile(RunAll(st, init), r, d);
    }
  }

  // ----- runs that die -----

  /** A run that dies leaves the file as it was, so the next run finds nothing of what it sent. */
  lemma DeadRunIsForgotten(st: State, dead: Session, again: Session)
    requires dead.ends.Dies?
    ensures RunAll(st, [dead]) == st
    ensures RunAll(st, [dead, again]) == Saved(st, again)
    ensures SentBy(st, [dead, again], Any()) == (if dead.dry then [] else Drafts(st, dead)) + (if again.dry then [] else Drafts(st, again))
  {
    hide Drafts, RunOnce;
    assert [dead][..0] == [] && [dead, again][..1] == [dead];
    assert [] + Drafts(st, dead) == Drafts(st, dead);
    assert RunAll(st, []) == st;
    var none: seq<Draft> := [];
    assert SentBy(st, [], Any()) == none;
    assert none + none == none;
  }

  /** The session with one post to answer at one moment. */
  function OnePost(t: Post, m: Mark, now: int, ends: Ending): Session {
    Session(now, now, 1, false, false, [t], (i: nat) => Text([m], true), (i: nat) => now, {}, ends)
  }

  lemma OnePostDraft(st: State, t: Post, m: Mark, now: int, ends: Ending)
    requires st.seen == [] && st.perDay == map[] && st.perAuthor == map[] && st.claims == Window(map[])
    requires DropReason(t, [], Since(st, now)).None?
    ensures RunOnce(st, OnePost(t, m, now, ends)).drafts == [Draft(t, DayOf(now), now, [m], true)]
  {
    hide DropReason, Since, CountPrompt;
    var r := OnePost(t, m, now, ends);
    assert [t][1..] == [];
    assert IsCandidate(st.seen, Since(st, r.start))(t);
    assert [t] + Filter([], IsCandidate(st.seen, Since(st, r.start))) == [t];
    assert Candidates(st, r) == [t];
    assert Sort([t], RanksBefore) == [t] by { assert [t][..0] == []; assert Sort([], RanksBefore) == []; }
    assert Sort([t], MoreViews) == [t] by { assert [t][..0] == []; assert Sort([], MoreViews) == []; }
    var p := Begin(Opened(st, r));
    assert Offered(st, r) == [t];
    assert !Clashes(p, 0, r);
    var q := Visit(p, t, 0, r);
    assert q.drafts == [] + [Draft(t, DayOf(now), now, [m], true)];
    assert Walk(p, [t], 0, Room(st, r), r) == Walk(q, [t], 1, Room(st, r), r) == q;
  }

  /** So a post can be answered twice with one claim within 48 hours: once by a run that died, once by the next. */
  lemma DeadRunDraftsAgain(st: State, t: Post, m: Mark, now: int)
    requires st.seen == [] && st.perDay == map[] && st.perAuthor == map[] && st.claims == Window(map[])
    requires DropReason(t, [], Since(st, now)).None?
    ensures var d := Draft(t, DayOf(now), now, [m], true);
            var sessions := [OnePost(t, m, now, Dies(1)), OnePost(t, m, now, Completes)];
            && InOrder(sessions) && SentBy(st, sessions, Any()) == [d, d] && !Spaced(Spent([d, d]))
  {
    var d := Draft(t, DayOf(now), now, [m], true);
    var dead, again := OnePost(t, m, now, Dies(1)), OnePost(t, m, now, Completes);
    OnePostDraft(st, t, m, now, Dies(1));
    OnePostDraft(st, t, m, now, Completes);
    DeadRunIsForgotten(st, dead, again);
    TwoMoments(t, m, now);
    hide RunOnce, SentBy, RunAll, Spaced, Spent, DropReason, Since, InOrder, OnePost;
    assert [d] + [d] == [d, d];
    SameClaimTwice(d, m);
  }

  lemma TwoMoments(t: Post, m: Mark, now: int)
    ensures InOrder([OnePost(t, m, now, Dies(1)), OnePost(t, m, now, Completes)])
  {
  }

  lemma SameClaimTwice(d: Draft, m: Mark)
    requires d.passed && m in d.marks
    ensures !Spaced(Spent([d, d]))
  {
    assert [d, d][..1] == [d] && [d][..0] == [];
    var u := Use(d.at, d.marks);
    assert Spent([d]) == [] + [u];
    assert Spent([d, d]) == [u] + [u];
    assert Spent([d, d])[0] == u && Spent([d, d])[1] == u && m in u.marks;
  }

  /** A run without room that breaks off while it writes its state. */
  function TornRun(now: int): Session {
    Session(now, now, 0, false, false, [], (i: nat) => Refused("empty"), (i: nat) => now, {}, Tears)
  }

  /** A torn state file between two completed runs lets the second draft the post and claim of the first again. */
  lemma TornFileDraftsAgain(t: Post, m: Mark, now: int)
    requires DropReason(t, [], Since(BLANK, now)).None?
    ensures var d, run := Draft(t, DayOf(now), now, [m], true), OnePost(t, m, now, Completes);
            var sessions := [run, TornRun(now), run];
            && InOrder(sessions) && SentBy(BLANK, sessions, Completed()) == [d, d]
            && SentBy(BLANK, sessions, Unsaved()) == [] && !Spaced(Spent([d, d]))
  {
    var d, run, torn := Draft(t, DayOf(now), now, [m], true), OnePost(t, m, now, Completes), TornRun(now);
    OnePostDraft(BLANK, t, m, now, Completes);
    SameClaimTwice(d, m);
    ThreeMoments(run, torn, now);
    TornSendsNothing(Saved(BLANK, run), now);
    TornBetween(run, torn);
    hide RunOnce, Spaced, Spent, DropReason, Since, InOrder, OnePost, TornRun, SentBy, Erased;
    assert [d] + [d] == [d, d];
  }

  lemma ThreeMoments(run: Session, torn: Session, now: int)
    requires run.start == run.finish == torn.start == torn.finish == now
    requires (forall i: nat :: run.clock(i) == now) && (forall i: nat :: torn.clock(i) == now)
    ensures InOrder([run, torn, run])
  {
  }

  lemma TornSendsNothing(st: State, now: int)
    ensures Drafts(st, TornRun(now)) == []
  {
    NothingToWalk(Begin(Opened(st, TornRun(now))), Room(st, TornRun(now)), TornRun(now));
  }

  lemma TornBetween(run: Session, torn: Session)
    requires run.ends.Completes? && torn.ends.Tears? && !run.dry && Drafts(Saved(BLANK, run), torn) == []
    ensures SentBy(BLANK, [run, torn, run], Completed()) == Drafts(BLANK, run) + Drafts(BLANK, run)
    ensures SentBy(BLANK, [run, torn, run], Unsaved()) == [] && Erased(BLANK, [run, torn, run]) == Drafts(BLANK, run)
  {
    var sessions, drafts := [run, torn, run], Drafts(BLANK, run);
    hide Drafts, RunOnce;
    assert sessions[..2] == [run, torn] && [run, torn][..1] == [run] && [run][..0] == [];
    assert RunAll(BLANK, []) == BLANK && RunAll(BLANK, [run]) == Saved(BLANK, run) && RunAll(BLANK, [run, torn]) == BLANK;
    hide RunAll, Saved;
    var none: seq<Draft> := [];
    assert none + drafts == drafts && drafts + none == drafts && none + none == none;
    assert SentBy(BLANK, [], Completed()) == none == SentBy(BLANK, [], Unsaved());
    assert SentBy(BLANK, [run], Completed()) == drafts && SentBy(BLANK, [run, torn], Completed()) == drafts;
    assert SentBy(BLANK, [run], Unsaved()) == none && SentBy(BLANK, [run, torn], Unsaved()) == none;
    assert Erased(BLANK, [run, torn]) == drafts;
  }

  // ----- dry runs -----

  lemma {:induction false} DryWalk(p: Progress, ordered: seq<Post>, i: nat, room: int, r: Session)
    requires i <= |ordered| && r.dry
    ensures var q := Walk(p, ordered, i, room, r);
            && q.state == p.state.(claims := q.state.claims)
            && p.drafts <= q.drafts
            && ((forall d :: d in q.drafts ==> !d.passed) ==> q.state.claims == p.state.claims)
    decreases |ordered| - i
  {
    hide Lapse, MarkSeen, Book, Conflict, Remember, AuthorCapped, IsFinal;
    if i < |ordered| {
      if p.made >= room {
        DryLapse(p, ordered[i..]);
      } else {
        var v := Visit(p, ordered[i], i, r);
        DryWalk(v, ordered, i + 1, room, r);
        if v.made > p.made {
          assert v.drafts[|p.drafts|] in Walk(v, ordered, i + 1, room, r).drafts;
        }
      }
    }
  }

  lemma {:induction false} DryLapse(p: Progress, rest: seq<Post>)
    ensures Lapse(p, rest, true).state == p.state && Lapse(p, rest, true).drafts == p.drafts
    decreases |rest|
  {
    if rest != [] {
      DryLapse(Skip(p, DailyCap, rest[0].id, false), rest[1..]);
    }
  }

  /**
   What a dry run writes: the newest list id and the prompt's counts, the claims of drafts that
   passed, and, exactly if it does not get to drafting, the time from which the next window is
   measured. It books no draft and marks no post seen.
   */
  lemma DryRunWrites(st: State, r: Session)
    requires r.dry && r.ends.Completes?
    ensures var t := Saved(st, r);
            && t.seen == st.seen && t.perDay == st.perDay && t.perAuthor == st.perAuthor
            && t.listSince == Opened(st, r).listSince
            && t.lastRunAt == (if Idle(st, r) then Some(r.start) else st.lastRunAt)
            && (Idle(st, r) ==> t.prompts == st.prompts && t.claims == st.claims)
            && (!Idle(st, r) ==> PromptOn(t, Today(r)).runs == PromptOn(st, Today(r)).runs + 1)
            && ((forall d :: d in Drafts(st, r) ==> !d.passed) ==> t.claims == st.claims)
  {
    hide Walk, Candidates, NewestListId;
    DryWalk(Begin(Opened(st, r)), Offered(st, r), 0, Room(st, r), r);
    NothingToWalk(Begin(Opened(st, r)), Room(st, r), r);
  }

  /**
   When a dry run makes a later run drop a post as too old that it would have read: exactly if
   the dry run did not get to drafting and the post is older than half an hour before it, or
   than the longest window.
   */
  lemma DryRunHidesPost(st: State, dry: Session, t: Post, start: int)
    requires dry.dry && dry.ends.Completes? && DropReason(t, st.seen, Since(st, start)).None?
    ensures var after := Saved(st, dry);
            DropReason(t, after.seen, Since(after, start)) == Some(Older)
            <==> Idle(st, dry) && t.created.Some?
                 && t.created.value < Max(dry.start - 1800, start - 15 * 3600)
  {
    DryRunWrites(st, dry);
    hide Saved, Idle;
  }

  /** A dry run with a limit of no drafts, between a post and the run that would have read it, hides the post. */
  lemma DryRunHidesUnreadPost(st: State, t: Post, now: int)
    requires st.seen == [] && st.lastRunAt == Some(now - 7200)
    requires t.created == Some(now - 3600) && DropReason(t, [], now - 9000).None?
    ensures var dry := Session(now, now, 0, true, false, [], (i: nat) => Refused("empty"), (i: nat) => now, {}, Completes);
            DropReason(t, st.seen, Since(st, now + 1)).None?
            && DropReason(t, Saved(st, dry).seen, Since(Saved(st, dry), now + 1)) == Some(Older)
  {
    var dry := Session(now, now, 0, true, false, [], (i: nat) => Refused("empty"), (i: nat) => now, {}, Completes);
    assert Idle(st, dry);
    DryRunHidesPost(st, dry, t, now + 1);
  }
}
