/**
 Sequences of runs of the ambassador, also of runs that die before the state is written or
 while it is: how often a comment is answered, exactly.
 */
module AmbassadorRuns {
  import opened Common
  import opened CommentGate
  import opened Ambassador
  import opened AmbassadorLaws

  function SavedAfter(st: State, sessions: seq<Session>): State {
    if sessions == [] then st else Saved(SavedAfter(st, sessions[..|sessions| - 1]), sessions[|sessions| - 1])
  }

  function Any(): Session -> bool {
    (s: Session) => true
  }

  function Completed(): Session -> bool {
    (s: Session) => s.ends.Completes?
  }

  /** Runs whose state did not reach the file. */
  function Unsaved(): Session -> bool {
    (s: Session) => !s.ends.Completes?
  }

  /** The replies posted by the runs that `which` selects. */
  function RepliesBy(st: State, sessions: seq<Session>, which: Session -> bool): seq<Reply> {
    if sessions == [] then []
    else
      var init, s := sessions[..|sessions| - 1], sessions[|sessions| - 1];
      RepliesBy(st, init, which) + (if which(s) then Posts(SavedAfter(st, init), s) else [])
  }

  /** The replies on record: those of completed runs since the state file was last torn. */
  function Standing(st: State, sessions: seq<Session>): seq<Reply> {
    if sessions == [] then []
    else
      var init, s := sessions[..|sessions| - 1], sessions[|sessions| - 1];
      if Wipes(s) then [] else Standing(st, init) + (if s.ends.Completes? then Posts(SavedAfter(st, init), s) else [])
  }

  /** The replies whose record a torn state file lost. */
  function Erased(st: State, sessions: seq<Session>): seq<Reply> {
    if sessions == [] then []
    else
      var init, s := sessions[..|sessions| - 1], sessions[|sessions| - 1];
      if Wipes(s) then RepliesBy(st, init, Completed()) else Erased(st, init)
  }

  /** The replies of completed runs are those whose record is lost, then those on record. */
  lemma {:induction false} CompletedSplits(st: State, sessions: seq<Session>)
    ensures RepliesBy(st, sessions, Completed()) == Erased(st, sessions) + Standing(st, sessions)
    ensures (forall s :: s in sessions ==> !Wipes(s)) ==> Erased(st, sessions) == []
  {
    if sessions != [] {
      hide Posts, SavedAfter;
      var init, s := sessions[..|sessions| - 1], sessions[|sessions| - 1];
      assert sessions == init + [s];
      CompletedSplits(st, init);
      var posts := if s.ends.Completes? then Posts(SavedAfter(st, init), s) else [];
      var all := RepliesBy(st, init, Completed());
      assert RepliesBy(st, sessions, Completed()) == all + posts;
      if Wipes(s) {
        assert all + [] == all;
      } else {
        assert Erased(st, init) + (Standing(st, init) + posts) == (Erased(st, init) + Standing(st, init)) + posts;
      }
    }
  }

  /** Every reply is one of a run that wrote its state or one of a run that did not. */
  lemma {:induction false} RepliesSplit(st: State, sessions: seq<Session>, keep: Reply -> bool)
    ensures |Filter(RepliesBy(st, sessions, Any()), keep)|
         == |Filter(RepliesBy(st, sessions, Completed()), keep)| + |Filter(RepliesBy(st, sessions, Unsaved()), keep)|
  {
    if sessions != [] {
      hide Posts, SavedAfter;
      var init, s := sessions[..|sessions| - 1], sessions[|sessions| - 1];
      RepliesSplit(st, init, keep);
      var posts := Posts(SavedAfter(st, init), s);
      FilterAppend(RepliesBy(st, init, Any()), posts, keep);
      FilterAppend(RepliesBy(st, init, Completed()), if s.ends.Completes? then posts else [], keep);
      FilterAppend(RepliesBy(st, init, Unsaved()), if s.ends.Completes? then [] else posts, keep);
    }
  }

  // ----- how often a comment is answered -----

  /** Since the state file was last torn, completed runs answer no comment twice, and remember each they answered. */
  lemma {:induction false} AnsweredAtMostOnce(st: State, sessions: seq<Session>)
    ensures Ledger(Standing(st, sessions), SavedAfter(st, sessions).seen)
  {
    hide Ledger, RunOnce;
    if sessions == [] {
      EmptyLedger(st.seen);
    } else {
      var init, s := sessions[..|sessions| - 1], sessions[|sessions| - 1];
      AnsweredAtMostOnce(st, init);
      var mid, log := SavedAfter(st, init), Standing(st, init);
      assert log + [] == log;
      RunAnswersOnce(mid, s, log);
      RunKeepsItsAllowance(mid, s);
      EmptyLedger(BLANK.seen);
    }
  }

  function To(thread: Id, comment: Id): Reply -> bool {
    (r: Reply) => r.thread == thread && r.comment == comment
  }

  function Times(log: seq<Reply>, thread: Id, comment: Id): nat {
    |Filter(log, To(thread, comment))|
  }

  predicate Remembered(seen: Seen, thread: Id, comment: Id) {
    comment in SeenIn(seen, thread)
  }

  function One(b: bool): nat {
    if b then 1 else 0
  }

  lemma {:induction false} LedgerTimes(log: seq<Reply>, seen: Seen, thread: Id, comment: Id)
    requires Ledger(log, seen)
    ensures Times(log, thread, comment) <= 1
    ensures Times(log, thread, comment) == 1 ==> Remembered(seen, thread, comment)
    ensures Times(log, thread, comment) == 0 <==> forall i :: 0 <= i < |log| ==> !To(thread, comment)(log[i])
  {
    if log != [] {
      var rest := log[1..];
      assert forall i :: 0 <= i < |rest| ==> rest[i] == log[i + 1];
      LedgerTimes(rest, seen, thread, comment);
    }
  }

  /** One run, had it completed: a comment it answers was not remembered before and is afterwards, and is answered once. */
  lemma RunTimes(st: State, s: Session, thread: Id, comment: Id)
    ensures var g := RunOnce(st, s);
            && Times(g.p.replies, thread, comment) <= 1
            && (Times(g.p.replies, thread, comment) == 1
                ==> !Remembered(st.seen, thread, comment) && Remembered(g.seen, thread, comment))
            && (Remembered(st.seen, thread, comment) ==> Remembered(g.seen, thread, comment))
  {
    hide RunOnce, Ledger, Times, Remembered;
    var replies := RunOnce(st, s).p.replies;
    EmptyLedger(st.seen);
    RunAnswersOnce(st, s, []);
    assert [] + replies == replies;
    LedgerTimes(replies, RunOnce(st, s).seen, thread, comment);
    StaysRemembered(st, s, thread, comment);
    if Remembered(st.seen, thread, comment) {
      RememberedIsNotAnswered(st, s, thread, comment);
    }
  }

  lemma StaysRemembered(st: State, s: Session, thread: Id, comment: Id)
    ensures Remembered(st.seen, thread, comment) ==> Remembered(RunOnce(st, s).seen, thread, comment)
  {
    hide RunOnce;
    RunRemembers(st, s, thread);
  }

  lemma RememberedIsNotAnswered(st: State, s: Session, thread: Id, comment: Id)
    requires Remembered(st.seen, thread, comment)
    ensures Times(RunOnce(st, s).p.replies, thread, comment) == 0
  {
    hide RunOnce, Ledger, Remembered, Times;
    var earlier, replies := [Reply(thread, comment, "", 0)], RunOnce(st, s).p.replies;
    OneReplyLedger(st.seen, thread, comment);
    RunAnswersOnce(st, s, earlier);
    LedgerTimes(earlier + replies, RunOnce(st, s).seen, thread, comment);
    TimesAppend(earlier, replies, thread, comment);
    OneTime(Reply(thread, comment, "", 0));
  }

  lemma OneTime(r: Reply)
    ensures Times([r], r.thread, r.comment) == 1
  {
    var to := To(r.thread, r.comment);
    assert to(r) && [r][1..] == [] && Filter([r], to) == [r] + Filter([], to);
  }

  lemma OneReplyLedger(seen: Seen, thread: Id, comment: Id)
    requires Remembered(seen, thread, comment)
    ensures Ledger([Reply(thread, comment, "", 0)], seen)
  {
  }

  /** Torn state files that had remembered a comment. */
  function Wiped(st: State, sessions: seq<Session>, thread: Id, comment: Id): nat {
    if sessions == [] then 0
    else
      var init, s := sessions[..|sessions| - 1], sessions[|sessions| - 1];
      Wiped(st, init, thread, comment) + One(Wipes(s) && Remembered(SavedAfter(st, init).seen, thread, comment))
  }

  /** Completed runs that settled a comment without answering it. */
  function SettledUnanswered(st: State, sessions: seq<Session>, thread: Id, comment: Id): nat {
    if sessions == [] then 0
    else
      var init, s := sessions[..|sessions| - 1], sessions[|sessions| - 1];
      var before := SavedAfter(st, init);
      SettledUnanswered(st, init, thread, comment)
      + One(!Remembered(before.seen, thread, comment) && Remembered(Saved(before, s).seen, thread, comment)
            && Times(Posts(before, s), thread, comment) == 0)
  }

  /**
   The exact number of replies to a comment over any runs: those of runs that did not write their
   state, one for each torn file that had remembered it, and one more if it is remembered now,
   less what was remembered without a reply.
   */
  lemma {:induction false} RepliesAreCounted(st: State, sessions: seq<Session>, thread: Id, comment: Id)
    ensures Times(RepliesBy(st, sessions, Any()), thread, comment) + One(Remembered(st.seen, thread, comment))
            + SettledUnanswered(st, sessions, thread, comment)
         == Times(RepliesBy(st, sessions, Unsaved()), thread, comment) + Wiped(st, sessions, thread, comment)
            + One(Remembered(SavedAfter(st, sessions).seen, thread, comment))
  {
    if sessions != [] {
      hide RunOnce, Times, Remembered;
      var init, s := sessions[..|sessions| - 1], sessions[|sessions| - 1];
      var before := SavedAfter(st, init);
      RepliesAreCounted(st, init, thread, comment);
      RunTimes(before, s, thread, comment);
      TimesAppend(RepliesBy(st, init, Any()), Posts(before, s), thread, comment);
      TimesAppend(RepliesBy(st, init, Unsaved()), if s.ends.Completes? then [] else Posts(before, s), thread, comment);
      RunKeepsItsAllowance(before, s);
      NoTimes(thread, comment);
      BlankRemembersNothing(thread, comment);
    }
  }

  lemma TimesAppend(a: seq<Reply>, b: seq<Reply>, thread: Id, comment: Id)
    ensures Times(a + b, thread, comment) == Times(a, thread, comment) + Times(b, thread, comment)
  {
    FilterAppend(a, b, To(thread, comment));
  }

  lemma NoTimes(thread: Id, comment: Id)
    ensures Times([], thread, comment) == 0
  {
  }

  lemma BlankRemembersNothing(thread: Id, comment: Id)
    ensures !Remembered(BLANK.seen, thread, comment)
  {
  }

  /** So, without such replies and torn files, at most one, and none to a comment remembered already. */
  lemma AtMostOnce(st: State, sessions: seq<Session>, thread: Id, comment: Id)
    ensures Times(RepliesBy(st, sessions, Any()), thread, comment) + One(Remembered(st.seen, thread, comment))
         <= Times(RepliesBy(st, sessions, Unsaved()), thread, comment) + Wiped(st, sessions, thread, comment) + 1
  {
    RepliesAreCounted(st, sessions, thread, comment);
  }

  // ----- runs that die -----

  /** What a run did that died is not in the file, so the next run starts where it started. */
  lemma DeadRunIsForgotten(st: State, dead: Session, again: Session)
    requires dead.ends.Dies?
    ensures SavedAfter(st, [dead]) == st && SavedAfter(st, [dead, again]) == Saved(st, again)
    ensures RepliesBy(st, [dead, again], Any()) == Posts(st, dead) + Posts(st, again)
  {
    hide RunOnce, Posts;
    assert [dead][..0] == [] && [dead, again][..1] == [dead];
    assert SavedAfter(st, []) == st;
    var none: seq<Reply> := [];
    assert RepliesBy(st, [], Any()) == none;
    assert none + Posts(st, dead) == Posts(st, dead);
  }

  /** One comment under one of our posts, and the draft passes. */
  function OneComment(c: Comment, thread: Id, day: Day, ends: Ending): Session {
    Session(Fine, day, false, [Thread(thread, Own, Some(1), [], [c], None)],
            (k: nat) => (i: nat) => Passed(Posted(day)), ends)
  }

  lemma OneCommentIsAnswered(st: State, c: Comment, thread: Id, day: Day, ends: Ending)
    requires st.seen == map[] && st.tries == [] && st.days == map[] && !c.ours && !c.empty
    ensures RunOnce(st, OneComment(c, thread, day, ends)).p.replies == [Reply(thread, c.id, c.author, day)]
  {
    var s := OneComment(c, thread, day, ends);
    var g, t, fates := Begin(st, Room(st, s)), s.threads[0], s.fates(0);
    assert Room(st, s) == MAX_PER_RUN;
    var asked := WhatIsAsked(t, {});
    assert asked == Asked([c], {}, {});
    var v := View({}, {}, {});
    var (p, w) := Consider(g.p, v, c, thread, fates(0), false);
    assert p.replies == [] + [Reply(thread, c.id, c.author, day)];
    assert Comments(g.p, v, [c], 0, thread, fates, false) == Comments(p, w, [c], 1, thread, fates, false) == (p, w);
    var h := OneThread(g, t, fates, false);
    assert h.p == p;
    assert Threads(g, s, 0) == Threads(h, s, 1) == h;
  }

  /** A run that dies after its reply lets the next run answer the same comment again. */
  lemma SecondReply(st: State, c: Comment, thread: Id, day: Day)
    requires st.seen == map[] && st.tries == [] && st.days == map[] && !c.ours && !c.empty
    ensures var sessions := [OneComment(c, thread, day, Dies(1, 0)), OneComment(c, thread, day, Completes)];
            Times(RepliesBy(st, sessions, Any()), thread, c.id) == 2
  {
    var dead, again := OneComment(c, thread, day, Dies(1, 0)), OneComment(c, thread, day, Completes);
    OneCommentIsAnswered(st, c, thread, day, Dies(1, 0));
    OneCommentIsAnswered(st, c, thread, day, Completes);
    DeadRunIsForgotten(st, dead, again);
    var r := Reply(thread, c.id, c.author, day);
    hide RunOnce, RepliesBy;
    assert Posts(st, dead) == [r] && Posts(st, again) == [r];
    TimesAppend([r], [r], thread, c.id);
    assert [r][1..] == [];
  }

  /** A run with nothing to read that breaks off while it writes its state. */
  function TornRun(day: Day): Session {
    Session(Fine, day, false, [], (k: nat) => (i: nat) => NoDraft, Tears)
  }

  /** A torn state file between two completed runs lets the second answer the comment of the first again. */
  lemma TornFileAnswersAgain(st: State, c: Comment, thread: Id, day: Day)
    requires st == BLANK && !c.ours && !c.empty
    ensures var run := OneComment(c, thread, day, Completes);
            var sessions := [run, TornRun(day), run];
            && Times(RepliesBy(st, sessions, Completed()), thread, c.id) == 2
            && RepliesBy(st, sessions, Unsaved()) == []
  {
    var run, torn := OneComment(c, thread, day, Completes), TornRun(day);
    var sessions := [run, torn, run];
    OneCommentIsAnswered(st, c, thread, day, Completes);
    var r := Reply(thread, c.id, c.author, day);
    var mid := Saved(st, run);
    assert RunOnce(mid, torn).p.replies == [];
    assert Posts(st, run) == [r];
    hide RunOnce;
    assert sessions[..2] == [run, torn] && [run, torn][..1] == [run] && [run][..0] == [];
    assert SavedAfter(st, []) == st && SavedAfter(st, [run]) == mid && SavedAfter(st, [run, torn]) == BLANK;
    hide Posts;
    assert RepliesBy(st, [run], Completed()) == [r] == RepliesBy(st, [run, torn], Completed());
    assert RepliesBy(st, sessions, Completed()) == [r] + [r];
    assert RepliesBy(st, [run], Unsaved()) == [] == RepliesBy(st, [run, torn], Unsaved());
    TimesAppend([r], [r], thread, c.id);
    OneTime(r);
  }
}
