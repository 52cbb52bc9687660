/** Refusals of one comment in a row, over any sequence of runs of the ambassador. */
module AmbassadorRefusals {
  import opened Common
  import opened CommentGate
  import opened Ambassador
  import opened AmbassadorLaws
  import opened AmbassadorRuns

  // ----- refusals in a row -----

  /** Refusals of a comment since its counter last started again, on top of what `base` recorded. */
  function Streak(base: Tries, marks: seq<Mark>, id: Id): nat {
    if marks == [] then Count(base, id)
    else
      var init, last := marks[..|marks| - 1], marks[|marks| - 1];
      if last == Refusal(id) then Streak(base, init, id) + 1
      else if last == Reset(id) then 0
      else Streak(base, init, id)
  }

  predicate CalmAt(base: Tries, marks: seq<Mark>, n: nat, id: Id)
    requires n <= |marks|
  {
    var streak := Streak(base, marks[..n], id);
    streak <= 3 && (streak == 3 ==> n < |marks| && marks[n] == Reset(id))
  }

  /** Never more than three in a row, and after the third the counter starts again at once. */
  ghost predicate Calm(base: Tries, marks: seq<Mark>) {
    forall n: nat, id :: n <= |marks| ==> CalmAt(base, marks, n, id)
  }

  ghost predicate Counted(base: Tries, tries: Tries, marks: seq<Mark>) {
    Fits(tries) && Calm(base, marks) && forall id :: Streak(base, marks, id) == Count(tries, id)
  }

  lemma StreakMore(base: Tries, marks: seq<Mark>, m: Mark)
    ensures forall id :: Streak(base, marks + [m], id)
                      == if m == Refusal(id) then Streak(base, marks, id) + 1
                         else if m == Reset(id) then 0 else Streak(base, marks, id)
  {
    assert (marks + [m])[..|marks|] == marks;
  }

  lemma CalmMore(base: Tries, marks: seq<Mark>, m: Mark)
    requires Calm(base, marks) && forall id :: Streak(base, marks + [m], id) < GATE_MAX_ATTEMPTS
    ensures Calm(base, marks + [m])
  {
    hide Streak;
    var more := marks + [m];
    forall n: nat, id | n <= |more| ensures CalmAt(base, more, n, id) {
      if n <= |marks| {
        assert more[..n] == marks[..n];
        assert CalmAt(base, marks, n, id);
      } else {
        assert more[..n] == more;
      }
    }
  }

  lemma CalmThird(base: Tries, marks: seq<Mark>, id: Id)
    requires Calm(base, marks) && Streak(base, marks, id) == GATE_MAX_ATTEMPTS - 1
    ensures Calm(base, marks + [Refusal(id)] + [Reset(id)])
  {
    var third := marks + [Refusal(id)];
    var more := third + [Reset(id)];
    StreakMore(base, marks, Refusal(id));
    StreakMore(base, third, Reset(id));
    hide Streak;
    forall n: nat, x | n <= |more| ensures CalmAt(base, more, n, x) {
      assert CalmAt(base, marks, |marks|, x) && marks[..|marks|] == marks;
      if n <= |marks| {
        assert more[..n] == marks[..n];
        assert CalmAt(base, marks, n, x);
      } else if n == |third| {
        assert more[..n] == third;
      } else {
        assert more[..n] == more;
      }
    }
  }

  lemma ResetKeeps(base: Tries, tries: Tries, marks: seq<Mark>, id: Id)
    requires Counted(base, tries, marks)
    ensures Counted(base, ClearAttempt(tries, id), marks + [Reset(id)])
  {
    hide Streak, Count, ClearAttempt, Fits, Calm;
    FitsMeans(tries);
    AttemptsStayInBounds(tries, id);
    ClearAttemptCounts(tries, id);
    StreakMore(base, marks, Reset(id));
    forall x ensures Streak(base, marks + [Reset(id)], x) < GATE_MAX_ATTEMPTS {
      FitsMeansSmall(tries, x);
    }
    CalmMore(base, marks, Reset(id));
  }

  lemma FitsMeans(tries: Tries)
    requires Fits(tries)
    ensures OnePerId(tries) && |tries| <= MAX_TRACKED_ATTEMPTS
  {
  }

  lemma FitsMeansSmall(tries: Tries, id: Id)
    requires Fits(tries)
    ensures Count(tries, id) < GATE_MAX_ATTEMPTS
  {
    if Tracked(tries, id) {
      var i :| 0 <= i < |tries| && tries[i].id == id;
      CountAt(tries, i);
    } else {
      CountAbsent(tries, id);
    }
  }

  /** Giving up the oldest counter starts that comment's streak again. */
  lemma EvictionStreak(base: Tries, tries: Tries, marks: seq<Mark>, id: Id)
    requires Counted(base, tries, marks)
    ensures Calm(base, marks + Evicted(tries, id))
    ensures forall x :: x != id ==> Streak(base, marks + Evicted(tries, id), x) == Count(NoteAttempt(tries, id), x)
    ensures Streak(base, marks + Evicted(tries, id), id) == Count(tries, id)
  {
    hide Streak, Count, NoteAttempt, Fits, Calm, Bump;
    FitsMeans(tries);
    NoteAttemptCounts(tries, id);
    var gone := Evicted(tries, id);
    if gone == [] {
      assert marks + gone == marks;
    } else {
      EvictsFirst(tries, id);
      var first := tries[0].id;
      assert marks + gone == marks + [Reset(first)];
      StreakMore(base, marks, Reset(first));
      forall x ensures Streak(base, marks + [Reset(first)], x) < GATE_MAX_ATTEMPTS {
        FitsMeansSmall(tries, x);
      }
      CalmMore(base, marks, Reset(first));
    }
  }

  lemma EvictsFirst(tries: Tries, id: Id)
    requires Fits(tries) && Evicted(tries, id) != []
    ensures tries != [] && Evicted(tries, id) == [Reset(tries[0].id)] && tries[0].id != id
  {
    NoteAttemptCounts(tries, id);
    if !Tracked(tries, id) {
      BumpAbsent(tries, id);
      assert tries[0].id != id;
    }
  }

  lemma RefusalKeeps(base: Tries, tries: Tries, marks: seq<Mark>, id: Id)
    requires Counted(base, tries, marks)
    ensures var noted, more := NoteAttempt(tries, id), marks + Evicted(tries, id) + [Refusal(id)];
            && Count(noted, id) <= GATE_MAX_ATTEMPTS
            && (Count(noted, id) < GATE_MAX_ATTEMPTS ==> Counted(base, noted, more))
            && (Count(noted, id) == GATE_MAX_ATTEMPTS ==> Counted(base, ClearAttempt(noted, id), more + [Reset(id)]))
  {
    hide Streak, Count, NoteAttempt, ClearAttempt, Fits, Calm, Evicted;
    var noted, mid := NoteAttempt(tries, id), marks + Evicted(tries, id);
    FitsMeans(tries);
    AttemptsStayInBounds(tries, id);
    NoteAttemptCounts(tries, id);
    ClearAttemptCounts(noted, id);
    EvictionStreak(base, tries, marks, id);
    StreakMore(base, mid, Refusal(id));
    if Count(noted, id) < GATE_MAX_ATTEMPTS {
      forall x ensures Streak(base, mid + [Refusal(id)], x) < GATE_MAX_ATTEMPTS {
        FitsMeansSmall(noted, x);
      }
      CalmMore(base, mid, Refusal(id));
    } else {
      CalmThird(base, mid, id);
      StreakMore(base, mid + [Refusal(id)], Reset(id));
    }
  }

  // ----- through a run -----

  /** What one comment does to the counters: nothing, a reset, a refusal, or a last refusal. */
  lemma ConsiderCounts(p: Progress, v: View, c: Comment, thread: Id, f: Fate, dry: bool)
    ensures var q := Consider(p, v, c, thread, f, dry).0;
            var noted, refused := NoteAttempt(p.tries, c.id), p.marks + Evicted(p.tries, c.id) + [Refusal(c.id)];
            || (q.tries == p.tries && q.marks == p.marks)
            || (!dry && q.tries == ClearAttempt(p.tries, c.id) && q.marks == p.marks + [Reset(c.id)])
            || (!dry && Count(noted, c.id) < GATE_MAX_ATTEMPTS && q.tries == noted && q.marks == refused)
            || (!dry && Count(noted, c.id) >= GATE_MAX_ATTEMPTS
                && q.tries == ClearAttempt(noted, c.id) && q.marks == refused + [Reset(c.id)])
  {
    hide NoteAttempt, ClearAttempt, Count, Evicted, CountComment;
  }

  lemma ConsiderKeepsCounts(base: Tries, before: seq<Mark>, p: Progress, v: View, c: Comment, thread: Id, f: Fate, dry: bool)
    requires Counted(base, p.tries, before + p.marks)
    ensures var q := Consider(p, v, c, thread, f, dry).0;
            Counted(base, q.tries, before + q.marks) && (dry ==> q.tries == p.tries && q.marks == p.marks)
  {
    hide Consider, Counted, NoteAttempt, ClearAttempt, Evicted, Count;
    var q := Consider(p, v, c, thread, f, dry).0;
    ConsiderCounts(p, v, c, thread, f, dry);
    ResetKeeps(base, p.tries, before + p.marks, c.id);
    RefusalKeeps(base, p.tries, before + p.marks, c.id);
    var marks := before + p.marks;
    assert before + (p.marks + [Reset(c.id)]) == marks + [Reset(c.id)];
    var refused := p.marks + Evicted(p.tries, c.id) + [Refusal(c.id)];
    assert before + refused == marks + Evicted(p.tries, c.id) + [Refusal(c.id)];
    assert before + (refused + [Reset(c.id)]) == before + refused + [Reset(c.id)];
  }

  lemma {:induction false} CommentsKeepCounts(base: Tries, before: seq<Mark>, p: Progress, v: View, cs: seq<Comment>, i: nat,
                                              thread: Id, fates: Fates, dry: bool)
    requires i <= |cs| && Counted(base, p.tries, before + p.marks)
    ensures var q := Comments(p, v, cs, i, thread, fates, dry).0;
            Counted(base, q.tries, before + q.marks) && (dry ==> q.tries == p.tries && q.marks == p.marks)
    decreases |cs| - i
  {
    hide Consider, Counted;
    if i < |cs| && p.room > 0 {
      var (q, w) := Consider(p, v, cs[i], thread, fates(i), dry);
      ConsiderKeepsCounts(base, before, p, v, cs[i], thread, fates(i), dry);
      CommentsKeepCounts(base, before, q, w, cs, i + 1, thread, fates, dry);
    }
  }

  lemma {:induction false} ThreadsKeepCounts(base: Tries, before: seq<Mark>, g: Going, s: Session, k: nat)
    requires k <= |s.threads| && Counted(base, g.p.tries, before + g.p.marks)
    ensures var h := Threads(g, s, k);
            Counted(base, h.p.tries, before + h.p.marks) && (s.dry ==> h.p.tries == g.p.tries && h.p.marks == g.p.marks)
    decreases |s.threads| - k
  {
    hide Comments, Counted, WhatIsAsked;
    if k < |s.threads| {
      var t := s.threads[k];
      if !g.p.outOfRoom && !NothingToRead(t) {
        var asked := WhatIsAsked(t, SeenIn(g.seen, t.id));
        CommentsKeepCounts(base, before, g.p, View(asked.seen, {}, asked.reasons), asked.candidates, 0, t.id, s.fates(k), s.dry);
      }
      ThreadsKeepCounts(base, before, OneThread(g, t, s.fates(k), s.dry), s, k + 1);
    }
  }

  /** The changes of the counters made by the runs that `which` selects. */
  function MarksBy(st: State, sessions: seq<Session>, which: Session -> bool): seq<Mark> {
    if sessions == [] then []
    else
      var init, s := sessions[..|sessions| - 1], sessions[|sessions| - 1];
      MarksBy(st, init, which) + (if which(s) then Marks(SavedAfter(st, init), s) else [])
  }

  /** What completed runs did to the counters since the state file was last torn. */
  function StandingMarks(st: State, sessions: seq<Session>): seq<Mark> {
    if sessions == [] then []
    else
      var init, s := sessions[..|sessions| - 1], sessions[|sessions| - 1];
      if Wipes(s) then [] else StandingMarks(st, init) + (if s.ends.Completes? then Marks(SavedAfter(st, init), s) else [])
  }

  /** The counters these changes start from: those at hand, or none after a torn file. */
  function Base(st: State, sessions: seq<Session>): Tries {
    if sessions == [] then st.tries
    else if Wipes(sessions[|sessions| - 1]) then BLANK.tries
    else Base(st, sessions[..|sessions| - 1])
  }

  lemma NothingCounted(tries: Tries)
    requires Fits(tries)
    ensures Counted(tries, tries, [])
  {
    forall n: nat, id | n <= 0 ensures CalmAt(tries, [], n, id) {
      FitsMeansSmall(tries, id);
    }
  }

  lemma RunKeepsCounts(st: State, s: Session, base: Tries, before: seq<Mark>)
    requires Counted(base, st.tries, before)
    ensures var g := RunOnce(st, s);
            Counted(base, g.p.tries, before + g.p.marks) && (s.dry ==> g.p.tries == st.tries && g.p.marks == [])
  {
    hide Threads, Counted;
    assert before + [] == before;
    if Room(st, s) > 0 {
      ThreadsKeepCounts(base, before, Begin(st, Room(st, s)), s, 0);
    }
  }

  /**
   Over any runs, also runs that die: the counters in the file stay at most 200, one per comment,
   each 1 or 2, and what completed runs did to them since the file was last torn never shows more
   than three refusals of a comment in a row before its counter is cleared, which settles it,
   hands it to posting, or gives it up for a newer comment.
   */
  lemma {:induction false} RefusalsInARow(st: State, sessions: seq<Session>)
    requires Fits(st.tries)
    ensures Fits(SavedAfter(st, sessions).tries)
    ensures Calm(Base(st, sessions), StandingMarks(st, sessions))
    ensures Counted(Base(st, sessions), SavedAfter(st, sessions).tries, StandingMarks(st, sessions))
  {
    NothingCounted(BLANK.tries);
    if sessions == [] {
      NothingCounted(st.tries);
    } else {
      hide RunOnce, Streak, Calm;
      var init, s := sessions[..|sessions| - 1], sessions[|sessions| - 1];
      RefusalsInARow(st, init);
      var mid, before := SavedAfter(st, init), StandingMarks(st, init);
      assert before + [] == before;
      RunKeepsCounts(mid, s, Base(st, init), before);
    }
  }

  /**
   A run that dies forgets its refusals, so they come on top: at no point of any run does a
   comment stand at more than three in a row, counted from what is on record when the run starts.
   */
  lemma StreakInAnyRun(st: State, sessions: seq<Session>, s: Session, n: nat, id: Id)
    requires Fits(st.tries) && n <= |Marks(SavedAfter(st, sessions), s)|
    ensures Streak(Base(st, sessions), StandingMarks(st, sessions) + Marks(SavedAfter(st, sessions), s)[..n], id) <= 3
  {
    hide RunOnce, Streak, Fits;
    var mid, before, base := SavedAfter(st, sessions), StandingMarks(st, sessions), Base(st, sessions);
    RefusalsInARow(st, sessions);
    RunKeepsCounts(mid, s, base, before);
    var all := before + RunOnce(mid, s).p.marks;
    assert CalmAt(base, all, |before| + n, id);
    assert Marks(mid, s)[..n] == RunOnce(mid, s).p.marks[..n];
    assert all[..|before| + n] == before + Marks(mid, s)[..n];
  }

  function Refusals(marks: seq<Mark>, id: Id): nat {
    multiset(marks)[Refusal(id)]
  }

  /** All refusals of a comment are those of runs that wrote their state and those of runs that did not. */
  lemma {:induction false} RefusalsAreCounted(st: State, sessions: seq<Session>, id: Id)
    ensures Refusals(MarksBy(st, sessions, Any()), id)
         == Refusals(MarksBy(st, sessions, Completed()), id) + Refusals(MarksBy(st, sessions, Unsaved()), id)
  {
    if sessions != [] {
      hide Marks, SavedAfter;
      RefusalsAreCounted(st, sessions[..|sessions| - 1], id);
    }
  }
}
