/** What holds of every run of the ambassador: one outcome per thread, replies within the allowance, nothing forgotten. */
module AmbassadorLaws {
  import opened Common
  import opened CommentGate
  import opened Ambassador

  // ----- one comment -----

  lemma DeliverEffect(p: Progress, v: View, c: Comment, thread: Id, posting: Posting)
    requires p.room > 0
    ensures var (q, w) := Deliver(p, v, c, thread, posting);
            && |q.replies| + q.room == |p.replies| + p.room
            && v.seen <= w.seen && v.reasons == w.reasons && w.flags != {}
            && (if posting.Posted?
                then q.replies == p.replies + [Reply(thread, c.id, c.author, posting.day)]
                     && q.answered == p.answered + {c.author} && c.id in w.seen && w.flags == v.flags + {Replied}
                     && q.days == CountComment(p.days, posting.day)
                else q.replies == p.replies && q.answered == p.answered && w.flags == v.flags + {Failed} && q.days == p.days)
            && q.tries == p.tries && q.marks == p.marks && q.skips == p.skips && q.outOfRoom == p.outOfRoom
  {
  }

  /** A reply to a comment not seen before, by an author not answered in this run. */
  ghost predicate Answers(p: Progress, v: View, q: Progress, w: View, c: Comment, thread: Id, day: Day) {
    && q.replies == p.replies + [Reply(thread, c.id, c.author, day)] && q.days == CountComment(p.days, day)
    && c.id !in v.seen && c.id in w.seen && Replied in w.flags
    && c.author !in p.answered && q.answered == p.answered + {c.author}
  }

  lemma ConsiderEffect(p: Progress, v: View, c: Comment, thread: Id, f: Fate, dry: bool)
    requires p.room > 0
    ensures var (q, w) := Consider(p, v, c, thread, f, dry);
            && |q.replies| + q.room == |p.replies| + p.room
            && v.seen <= w.seen && v.flags <= w.flags
            && q.outOfRoom == p.outOfRoom
            && (q.replies == p.replies || (!dry && exists day :: Answers(p, v, q, w, c, thread, day)))
            && (q.replies == p.replies
                ==> q.answered == p.answered && q.days == p.days && (Replied in w.flags <==> Replied in v.flags))
            && (w.flags == {} ==> q == p)
  {
    hide ClearAttempt, NoteAttempt, Count, CountComment, Evicted, Deliver, Answers;
    var (q, w) := Consider(p, v, c, thread, f, dry);
    if f.Refused? {
      DeliverEffect(Clear(CountRefusal(p, c.id), c.id), v, c, thread, f.posting);
    } else if f.Passed? {
      DeliverEffect(Clear(p, c.id), v, c, thread, f.posting);
    }
    if q.replies != p.replies {
      AnswersIf(p, v, q, w, c, thread, f.posting.day);
    }
  }

  lemma AnswersIf(p: Progress, v: View, q: Progress, w: View, c: Comment, thread: Id, day: Day)
    requires q.replies == p.replies + [Reply(thread, c.id, c.author, day)] && q.days == CountComment(p.days, day)
    requires c.id !in v.seen && c.id in w.seen && Replied in w.flags
    requires c.author !in p.answered && q.answered == p.answered + {c.author}
    ensures Answers(p, v, q, w, c, thread, day)
  {
  }

  // ----- a run: room, authors, and no comment twice -----

  /** Replies and room add up, and no author was answered twice. */
  ghost predicate Fair(p: Progress, room: nat) {
    && |p.replies| + p.room == room
    && (forall i :: 0 <= i < |p.replies| ==> p.replies[i].author in p.answered)
    && forall i, j :: 0 <= i < j < |p.replies| ==> p.replies[i].author != p.replies[j].author
  }

  /** Every reply is remembered, and none was made twice. */
  ghost predicate Ledger(log: seq<Reply>, seen: Seen) {
    && (forall i :: 0 <= i < |log| ==> log[i].comment in SeenIn(seen, log[i].thread))
    && forall i, j :: 0 <= i < j < |log| ==> log[i].thread != log[j].thread || log[i].comment != log[j].comment
  }

  lemma AnswerIsFair(p: Progress, v: View, q: Progress, w: View, c: Comment, thread: Id, day: Day, room: nat)
    requires Fair(p, room) && Answers(p, v, q, w, c, thread, day) && |q.replies| + q.room == |p.replies| + p.room
    ensures Fair(q, room)
  {
  }

  lemma AnswerIsNew(log: seq<Reply>, seen: Seen, r: Reply, was: set<Id>, now: set<Id>)
    requires Ledger(log, seen[r.thread := was]) && was <= now && r.comment !in was && r.comment in now
    ensures Ledger(log + [r], seen[r.thread := now])
  {
  }

  lemma LedgerGrows(log: seq<Reply>, seen: Seen, thread: Id, was: set<Id>, now: set<Id>)
    requires Ledger(log, seen[thread := was]) && was <= now
    ensures Ledger(log, seen[thread := now])
  {
  }

  lemma {:induction false} CommentsKeep(p: Progress, v: View, cs: seq<Comment>, i: nat, thread: Id, fates: Fates, dry: bool,
                                        room: nat, before: seq<Reply>, seen: Seen)
    requires i <= |cs| && Fair(p, room) && Ledger(before + p.replies, seen[thread := v.seen])
    ensures var (q, w) := Comments(p, v, cs, i, thread, fates, dry);
            && Fair(q, room) && Ledger(before + q.replies, seen[thread := w.seen])
            && p.replies <= q.replies && v.flags <= w.flags
            && (dry ==> q.replies == p.replies)
            && (Replied in w.flags <==> Replied in v.flags || |q.replies| > |p.replies|)
            && (w.flags == {} ==> q == p.(outOfRoom := q.outOfRoom))
    decreases |cs| - i
  {
    hide Consider, Answers, Ledger, Fair;
    if i < |cs| && p.room > 0 {
      var (q, w) := Consider(p, v, cs[i], thread, fates(i), dry);
      ConsiderEffect(p, v, cs[i], thread, fates(i), dry);
      if q.replies == p.replies {
        LedgerGrows(before + p.replies, seen, thread, v.seen, w.seen);
        SameIsFair(p, q, room);
      } else {
        var day :| Answers(p, v, q, w, cs[i], thread, day);
        AnswerIsFair(p, v, q, w, cs[i], thread, day, room);
        AnsweredReply(p, v, q, w, cs[i], thread, day);
        AnswerIsNew(before + p.replies, seen, Reply(thread, cs[i].id, cs[i].author, day), v.seen, w.seen);
        assert before + q.replies == (before + p.replies) + [Reply(thread, cs[i].id, cs[i].author, day)];
      }
      CommentsKeep(q, w, cs, i + 1, thread, fates, dry, room, before, seen);
    } else {
      SameIsFair(p, p.(outOfRoom := true), room);
    }
  }

  lemma AnsweredReply(p: Progress, v: View, q: Progress, w: View, c: Comment, thread: Id, day: Day)
    requires Answers(p, v, q, w, c, thread, day)
    ensures q.replies == p.replies + [Reply(thread, c.id, c.author, day)] && q.days == CountComment(p.days, day)
    ensures c.id !in v.seen && c.id in w.seen && Replied in w.flags
  {
  }

  lemma SameIsFair(p: Progress, q: Progress, room: nat)
    requires q.replies == p.replies && q.answered == p.answered && |q.replies| + q.room == |p.replies| + p.room
    ensures Fair(p, room) <==> Fair(q, room)
  {
  }

  lemma {:induction false} AskedGrows(a: Asked, t: Thread, targets: seq<Id>)
    ensures a.seen <= AddMentions(a, t, targets).seen
    decreases |targets|
  {
    if targets != [] {
      AskedGrows(AddMention(a, t, targets[0]), t, targets[1..]);
    }
  }

  /**
   One thread: it gets exactly one outcome, `replied` exactly when a reply went out in it, and
   an unconsidered thread leaves every counter of the run as it was.
   */
  lemma OneThreadKeeps(g: Going, t: Thread, fates: Fates, dry: bool, room: nat, before: seq<Reply>)
    requires Fair(g.p, room) && Ledger(before + g.p.replies, g.seen)
    ensures var h := OneThread(g, t, fates, dry);
            && |h.outcomes| == |g.outcomes| + 1 && g.outcomes <= h.outcomes
            && (h.outcomes[|g.outcomes|] == Considered(Replied) <==> |h.p.replies| > |g.p.replies|)
            && (h.outcomes[|g.outcomes|].Unconsidered? ==> h.p == g.p.(outOfRoom := h.p.outOfRoom))
            && Fair(h.p, room) && Ledger(before + h.p.replies, h.seen)
            && g.p.replies <= h.p.replies && (dry ==> h.p.replies == g.p.replies)
  {
    hide Comments, Fair, Ledger;
    if !g.p.outOfRoom && !NothingToRead(t) {
      var seen := SeenIn(g.seen, t.id);
      var asked := WhatIsAsked(t, seen);
      AskedGrows(Asked(if t.source == Mentioned then [] else t.comments, seen, {}), t, t.mentions);
      LedgerAt(before + g.p.replies, g.seen, t.id);
      LedgerGrows(before + g.p.replies, g.seen, t.id, seen, asked.seen);
      var start := View(asked.seen, {}, asked.reasons);
      CommentsKeep(g.p, start, asked.candidates, 0, t.id, fates, dry, room, before, g.seen);
      NoFlagLeft(Comments(g.p, start, asked.candidates, 0, t.id, fates, dry).1);
    }
  }

  lemma NoFlagLeft(v: View)
    ensures PostOutcome(v.flags, v.reasons).Unconsidered? <==> v.flags == {}
  {
    if v.flags != {} {
      var flag :| flag in v.flags;
      assert flag == Replied || flag == WouldReply || flag == Skipped || flag == Failed;
    }
  }

  lemma LedgerAt(log: seq<Reply>, seen: Seen, thread: Id)
    requires Ledger(log, seen)
    ensures Ledger(log, seen[thread := SeenIn(seen, thread)])
  {
  }

  lemma {:induction false} ThreadsKeep(g: Going, s: Session, k: nat, room: nat, before: seq<Reply>)
    requires k <= |s.threads| && |g.outcomes| == k
    requires Fair(g.p, room) && Ledger(before + g.p.replies, g.seen)
    ensures var h := Threads(g, s, k);
            && |h.outcomes| == |s.threads|
            && Fair(h.p, room) && Ledger(before + h.p.replies, h.seen)
            && g.p.replies <= h.p.replies && (s.dry ==> h.p.replies == g.p.replies)
    decreases |s.threads| - k
  {
    hide OneThread, Fair, Ledger;
    if k < |s.threads| {
      OneThreadKeeps(g, s.threads[k], s.fates(k), s.dry, room, before);
      ThreadsKeep(OneThread(g, s.threads[k], s.fates(k), s.dry), s, k + 1, room, before);
    }
  }

  /**
   A run never writes more than its allowance, never answers an author twice, and settles
   every thread it found; a dry run writes nothing.
   */
  lemma RunKeepsItsAllowance(st: State, s: Session)
    ensures var g := RunOnce(st, s);
            && |g.p.replies| + g.p.room == Room(st, s)
            && (forall i, j :: 0 <= i < j < |g.p.replies| ==> g.p.replies[i].author != g.p.replies[j].author)
            && (Room(st, s) > 0 ==> |g.outcomes| == |s.threads|)
            && (s.dry ==> g.p.replies == [])
  {
    if Room(st, s) > 0 {
      ThreadsKeep(Begin(st, Room(st, s)), s, 0, Room(st, s), []);
    }
  }

  // ----- the summary line -----

  function Times(outcomes: seq<Outcome>, o: Outcome): nat {
    multiset(outcomes)[o]
  }

  function ConsideredCount(outcomes: seq<Outcome>): nat {
    Times(outcomes, Considered(Replied)) + Times(outcomes, Considered(WouldReply))
    + Times(outcomes, Considered(Skipped)) + Times(outcomes, Considered(Failed))
  }

  function UnconsideredCount(outcomes: seq<Outcome>): nat {
    Times(outcomes, Unconsidered(MentionUnavailable)) + Times(outcomes, Unconsidered(TargetMissing))
    + Times(outcomes, Unconsidered(OursOrEmpty)) + Times(outcomes, Unconsidered(AlreadySeen))
    + Times(outcomes, Unconsidered(OutOfRoom)) + Times(outcomes, Unconsidered(NoComments))
  }

  /** The counts of the summary add up to the outcomes, so in a run with room to the threads found. */
  lemma {:induction false} SummaryAddsUp(outcomes: seq<Outcome>)
    ensures ConsideredCount(outcomes) + UnconsideredCount(outcomes) == |outcomes|
  {
    if outcomes != [] {
      var init, last := outcomes[..|outcomes| - 1], outcomes[|outcomes| - 1];
      assert outcomes == init + [last];
      SummaryAddsUp(init);
      OneOutcomeMore(init, last);
    }
  }

  lemma OneOutcomeMore(init: seq<Outcome>, last: Outcome)
    ensures ConsideredCount(init + [last]) == ConsideredCount(init) + (if last.Considered? then 1 else 0)
    ensures UnconsideredCount(init + [last]) == UnconsideredCount(init) + (if last.Considered? then 0 else 1)
  {
    hide Times;
    forall o ensures Times(init + [last], o) == Times(init, o) + (if o == last then 1 else 0) {
      TimesMore(init, last, o);
    }
    match last {
      case Considered(flag) =>
        assert flag == Replied || flag == WouldReply || flag == Skipped || flag == Failed;
      case Unconsidered(reason) =>
        assert reason == MentionUnavailable || reason == TargetMissing || reason == OursOrEmpty
            || reason == AlreadySeen || reason == OutOfRoom || reason == NoComments;
    }
  }

  lemma TimesMore(init: seq<Outcome>, last: Outcome, o: Outcome)
    ensures Times(init + [last], o) == Times(init, o) + (if o == last then 1 else 0)
  {
  }

  // ----- what is remembered stays remembered -----

  lemma {:induction false} CommentsRemember(p: Progress, v: View, cs: seq<Comment>, i: nat, thread: Id, fates: Fates, dry: bool)
    requires i <= |cs|
    ensures v.seen <= Comments(p, v, cs, i, thread, fates, dry).1.seen
    decreases |cs| - i
  {
    hide Consider, Answers;
    if i < |cs| && p.room > 0 {
      var (q, w) := Consider(p, v, cs[i], thread, fates(i), dry);
      ConsiderEffect(p, v, cs[i], thread, fates(i), dry);
      CommentsRemember(q, w, cs, i + 1, thread, fates, dry);
    }
  }

  lemma {:induction false} ThreadsRemember(g: Going, s: Session, k: nat, thread: Id)
    requires k <= |s.threads|
    ensures SeenIn(g.seen, thread) <= SeenIn(Threads(g, s, k).seen, thread)
    decreases |s.threads| - k
  {
    hide Comments, AddMentions;
    if k < |s.threads| {
      var t := s.threads[k];
      if !g.p.outOfRoom && !NothingToRead(t) {
        var seen := SeenIn(g.seen, t.id);
        var asked := WhatIsAsked(t, seen);
        AskedGrows(Asked(if t.source == Mentioned then [] else t.comments, seen, {}), t, t.mentions);
        CommentsRemember(g.p, View(asked.seen, {}, asked.reasons), asked.candidates, 0, t.id, s.fates(k), s.dry);
      }
      ThreadsRemember(OneThread(g, t, s.fates(k), s.dry), s, k + 1, thread);
    }
  }

  lemma RunRemembers(st: State, s: Session, thread: Id)
    ensures SeenIn(st.seen, thread) <= SeenIn(RunOnce(st, s).seen, thread)
  {
    if Room(st, s) > 0 {
      ThreadsRemember(Begin(st, Room(st, s)), s, 0, thread);
    }
  }

  /** A run answers no comment that the file remembers, none twice, and remembers each it answers. */
  lemma RunAnswersOnce(st: State, s: Session, before: seq<Reply>)
    requires Ledger(before, st.seen)
    ensures Ledger(before + RunOnce(st, s).p.replies, RunOnce(st, s).seen)
  {
    hide Threads, Ledger;
    assert before + [] == before;
    if Room(st, s) > 0 {
      ThreadsKeep(Begin(st, Room(st, s)), s, 0, Room(st, s), before);
    }
  }

  lemma EmptyLedger(seen: Seen)
    ensures Ledger([], seen)
  {
  }
}
