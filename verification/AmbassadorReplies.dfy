/** To whom a run of the ambassador replies, said of threads, comments and what is decided about them. */
module AmbassadorReplies {
  import opened Common
  import opened CommentGate
  import opened Ambassador
  import opened AmbassadorLaws
  import opened AmbassadorRuns

  // ----- what may be answered -----

  /** A comment of the thread, or the post itself where it mentions us. */
  predicate Asks(t: Thread, c: Comment) {
    || (t.source != Mentioned && c in t.comments)
    || (t.source == Mentioned && c in t.comments && c.id in t.mentions)
    || (t.asComment == Some(c) && t.id in t.mentions)
  }

  /** Comments come first, in reading order; behind them, and in a thread found by a mention alone, what mentions us. */
  ghost predicate Placed(t: Thread, candidates: seq<Comment>) {
    && (forall c :: c in candidates ==> Asks(t, c))
    && (t.source != Mentioned ==> t.comments <= candidates)
    && (t.source != Mentioned ==> forall i :: |t.comments| <= i < |candidates| ==> Some(candidates[i]) == t.asComment)
  }

  lemma {:induction false} ByIdMeans(comments: seq<Comment>, id: Id)
    ensures ById(comments, id).Some? ==> ById(comments, id).value in comments && ById(comments, id).value.id == id
  {
    if comments != [] {
      ByIdMeans(comments[..|comments| - 1], id);
    }
  }

  lemma {:induction false} MentionsArePlaced(a: Asked, t: Thread, targets: seq<Id>)
    requires Placed(t, a.candidates) && forall id :: id in targets ==> id in t.mentions
    ensures Placed(t, AddMentions(a, t, targets).candidates)
    decreases |targets|
  {
    if targets != [] {
      ByIdMeans(t.comments, targets[0]);
      assert targets[0] in targets;
      MentionsArePlaced(AddMention(a, t, targets[0]), t, targets[1..]);
    }
  }

  lemma CandidatesArePlaced(t: Thread, seen: set<Id>)
    ensures Placed(t, WhatIsAsked(t, seen).candidates)
  {
    MentionsArePlaced(Asked(if t.source == Mentioned then [] else t.comments, seen, {}), t, t.mentions);
  }

  // ----- one comment -----

  /** The gate passed the draft and it was posted, or the last resort after the third refusal was. */
  predicate GoesOut(f: Fate, refusals: nat, day: Day) {
    f == Passed(Posted(day)) || (f == Refused(true, Posted(day)) && refusals >= 3)
  }

  /** Exactly when a comment is answered; our own and empty ones are remembered and change nothing else. */
  lemma ConsiderMeans(p: Progress, v: View, c: Comment, thread: Id, f: Fate, dry: bool)
    ensures var (q, w) := Consider(p, v, c, thread, f, dry);
            && (q.replies != p.replies <==>
                && c.id !in v.seen && !c.ours && !c.empty && c.author !in p.answered && !dry
                && exists day :: GoesOut(f, Count(NoteAttempt(p.tries, c.id), c.id), day))
            && (forall day :: q.replies != p.replies && GoesOut(f, Count(NoteAttempt(p.tries, c.id), c.id), day) ==>
                  q.replies == p.replies + [Reply(thread, c.id, c.author, day)])
            && (c.ours || c.empty ==> q == p && w.flags == v.flags && c.id in w.seen)
            && v.seen <= w.seen
  {
    hide NoteAttempt, ClearAttempt, Count, CountComment, Evicted;
    var (q, w) := Consider(p, v, c, thread, f, dry);
    if f.Passed? && f.posting.Posted? {
      assert GoesOut(f, Count(NoteAttempt(p.tries, c.id), c.id), f.posting.day);
    } else if f.Refused? && f.fallback && f.posting.Posted? {
      assert GoesOut(f, 3, f.posting.day);
      assert Count(NoteAttempt(p.tries, c.id), c.id) >= 3 ==> GoesOut(f, Count(NoteAttempt(p.tries, c.id), c.id), f.posting.day);
    }
  }

  /** What is settled about a comment past the filters, and so remembered: anything but an early refusal or a draft withheld. */
  predicate Ends(f: Fate, refusals: nat) {
    || f.NoDraft? || f.Discarded? || (f.Passed? && !f.posting.Withheld?)
    || (f.Refused? && refusals >= 3 && (!f.fallback || !f.posting.Withheld?))
  }

  /** Exactly when a comment is remembered, and what the summary counts it as. */
  lemma ConsiderBooks(p: Progress, v: View, c: Comment, thread: Id, f: Fate, dry: bool)
    ensures var (q, w) := Consider(p, v, c, thread, f, dry);
            var n, known := Count(NoteAttempt(p.tries, c.id), c.id), c.author in p.answered;
            var filtered := c.id in v.seen || c.ours || c.empty;
            && (c.id in w.seen <==>
                  filtered || f.LowEffort? || f.OffTopic? || (!known && (f.RateLimited? || (!dry && Ends(f, n)))))
            && q.skips.lowEffort == p.skips.lowEffort + (if !filtered && f.LowEffort? then 1 else 0)
            && q.skips.offTopic == p.skips.offTopic + (if !filtered && f.OffTopic? then 1 else 0)
            && q.skips.rateLimit == p.skips.rateLimit
                 + (if !filtered && !f.LowEffort? && !f.OffTopic? && (known || f.RateLimited?) then 1 else 0)
            && q.skips.gate == p.skips.gate
                 + (if !filtered && !known && !dry && (f.Discarded? || (f.Refused? && (n < 3 || !f.fallback))) then 1 else 0)
            && forall id :: id != c.id ==> (id in w.seen <==> id in v.seen)
  {
    hide NoteAttempt, ClearAttempt, Count, CountComment, Evicted;
  }

  /** A refusal below the third is counted; a draft that passed, was dropped or was refused for the third time clears the counter. */
  lemma ConsiderTries(p: Progress, v: View, c: Comment, thread: Id, f: Fate, dry: bool)
    ensures var q := Consider(p, v, c, thread, f, dry).0;
            var n := Count(NoteAttempt(p.tries, c.id), c.id);
            var drafted := c.id !in v.seen && !c.ours && !c.empty && c.author !in p.answered && !dry;
            q.tries == if drafted && f.Refused? && n < 3 then NoteAttempt(p.tries, c.id)
                       else if drafted && f.Refused? then ClearAttempt(NoteAttempt(p.tries, c.id), c.id)
                       else if drafted && (f.Passed? || f.Discarded?) then ClearAttempt(p.tries, c.id) else p.tries
  {
    hide NoteAttempt, ClearAttempt, Count, CountComment, Evicted;
  }

  // ----- a whole run -----

  predicate Stands(t: Thread, i: nat, c: Comment) {
    t.source != Mentioned ==> if i < |t.comments| then c == t.comments[i] else t.asComment == Some(c)
  }

  /** A reply that answers the i-th candidate of a thread. */
  ghost predicate Answers(t: Thread, fates: Fates, i: nat, r: Reply) {
    && r.thread == t.id && GoesOut(fates(i), 3, r.day)
    && exists c :: Asks(t, c) && c.id == r.comment && c.author == r.author && !c.ours && !c.empty && Stands(t, i, c)
  }

  ghost predicate Justified(t: Thread, fates: Fates, r: Reply) {
    exists i: nat :: Answers(t, fates, i, r)
  }

  ghost predicate AllJustified(s: Session, replies: seq<Reply>) {
    forall r :: r in replies ==> exists k :: 0 <= k < |s.threads| && Justified(s.threads[k], s.fates(k), r)
  }

  lemma OneIsJustified(t: Thread, fates: Fates, cs: seq<Comment>, i: nat, p: Progress, v: View, dry: bool)
    requires Placed(t, cs) && i < |cs|
    ensures var q := Consider(p, v, cs[i], t.id, fates(i), dry).0;
            forall r :: r in q.replies ==> r in p.replies || Justified(t, fates, r)
  {
    hide Consider, Count, NoteAttempt;
    var c, n := cs[i], Count(NoteAttempt(p.tries, cs[i].id), cs[i].id);
    ConsiderMeans(p, v, c, t.id, fates(i), dry);
    var q := Consider(p, v, c, t.id, fates(i), dry).0;
    if q.replies != p.replies {
      var day :| GoesOut(fates(i), n, day);
      var r := Reply(t.id, c.id, c.author, day);
      assert q.replies == p.replies + [r];
      assert Asks(t, c);
      assert Answers(t, fates, i, r);
    }
  }

  lemma {:induction false} CommentsAreJustified(t: Thread, fates: Fates, cs: seq<Comment>, i: nat, p: Progress, v: View, dry: bool)
    requires Placed(t, cs) && i <= |cs|
    ensures var q := Comments(p, v, cs, i, t.id, fates, dry).0;
            forall r :: r in q.replies ==> r in p.replies || Justified(t, fates, r)
    decreases |cs| - i
  {
    hide Consider, Justified, Placed;
    if i < |cs| && p.room > 0 {
      OneIsJustified(t, fates, cs, i, p, v, dry);
      var (q, w) := Consider(p, v, cs[i], t.id, fates(i), dry);
      CommentsAreJustified(t, fates, cs, i + 1, q, w, dry);
    }
  }

  lemma {:induction false} ThreadsAreJustified(g: Going, s: Session, k: nat)
    requires k <= |s.threads| && AllJustified(s, g.p.replies)
    ensures AllJustified(s, Threads(g, s, k).p.replies)
    decreases |s.threads| - k
  {
    hide Comments, WhatIsAsked, Justified, Placed;
    if k < |s.threads| {
      var t := s.threads[k];
      if !g.p.outOfRoom && !NothingToRead(t) {
        var asked := WhatIsAsked(t, SeenIn(g.seen, t.id));
        CandidatesArePlaced(t, SeenIn(g.seen, t.id));
        CommentsAreJustified(t, s.fates(k), asked.candidates, 0, g.p, View(asked.seen, {}, asked.reasons), s.dry);
      }
      ThreadsAreJustified(OneThread(g, t, s.fates(k), s.dry), s, k + 1);
    }
  }

  /**
   Every reply of a run answers a comment of its thread, or the post itself where it mentions us;
   the comment is neither ours nor empty, in a thread found by a mention alone it is one that
   mentions us, and its draft passed or, refused for the third time, went out as the last resort.
   */
  lemma RepliesAreJustified(st: State, s: Session)
    ensures AllJustified(s, RunOnce(st, s).p.replies)
  {
    hide Threads, Justified;
    if Room(st, s) > 0 {
      ThreadsAreJustified(Begin(st, Room(st, s)), s, 0);
    }
  }

  /** So do the replies of any runs, however they end. */
  lemma {:induction false} AllRepliesAreJustified(st: State, sessions: seq<Session>, r: Reply)
    requires r in RepliesBy(st, sessions, Any())
    ensures exists n, k :: 0 <= n < |sessions| && 0 <= k < |sessions[n].threads|
              && Justified(sessions[n].threads[k], sessions[n].fates(k), r)
  {
    hide RunOnce, Justified;
    var init, s := sessions[..|sessions| - 1], sessions[|sessions| - 1];
    if r in RepliesBy(st, init, Any()) {
      AllRepliesAreJustified(st, init, r);
      var n, k :| 0 <= n < |init| && 0 <= k < |init[n].threads| && Justified(init[n].threads[k], init[n].fates(k), r);
      assert init[n] == sessions[n];
    } else {
      assert r in RunOnce(SavedAfter(st, init), s).p.replies;
      RepliesAreJustified(SavedAfter(st, init), s);
    }
  }

  // ----- our own comments -----

  predicate Silent(c: Comment) {
    c.ours || c.empty
  }

  lemma {:induction false} OwnAreSeen(t: Thread, fates: Fates, cs: seq<Comment>, i: nat, p: Progress, v: View, dry: bool, j: nat)
    requires i <= |cs| && j < |cs| && Silent(cs[j]) && !Comments(p, v, cs, i, t.id, fates, dry).0.outOfRoom
    requires i <= j || cs[j].id in v.seen
    ensures cs[j].id in Comments(p, v, cs, i, t.id, fates, dry).1.seen
    decreases |cs| - i
  {
    hide Consider;
    if i < |cs| && p.room > 0 {
      ConsiderMeans(p, v, cs[i], t.id, fates(i), dry);
      var (q, w) := Consider(p, v, cs[i], t.id, fates(i), dry);
      OwnAreSeen(t, fates, cs, i + 1, q, w, dry, j);
    }
  }

  lemma {:induction false} RoomNeverReturns(g: Going, s: Session, k: nat)
    requires k <= |s.threads| && g.p.outOfRoom
    ensures Threads(g, s, k).p.outOfRoom
    decreases |s.threads| - k
  {
    if k < |s.threads| {
      RoomNeverReturns(OneThread(g, s.threads[k], s.fates(k), s.dry), s, k + 1);
    }
  }

  lemma {:induction false} ThreadsSeeOwn(g: Going, s: Session, k: nat, n: nat, c: Comment)
    requires k <= n < |s.threads| && !Threads(g, s, k).p.outOfRoom
    requires s.threads[n].source != Mentioned && !(s.threads[n].count == Some(0) && s.threads[n].mentions == [])
    requires c in s.threads[n].comments && Silent(c)
    ensures c.id in SeenIn(Threads(g, s, k).seen, s.threads[n].id)
    decreases |s.threads| - k
  {
    hide Comments, WhatIsAsked, Silent;
    var t := s.threads[k];
    var next := OneThread(g, t, s.fates(k), s.dry);
    if g.p.outOfRoom {
      RoomNeverReturns(g, s, k);
    } else if next.p.outOfRoom {
      RoomNeverReturns(next, s, k + 1);
    } else if k < n {
      ThreadsSeeOwn(next, s, k + 1, n, c);
    } else {
      var asked := WhatIsAsked(t, SeenIn(g.seen, t.id));
      CandidatesArePlaced(t, SeenIn(g.seen, t.id));
      var j :| 0 <= j < |t.comments| && t.comments[j] == c;
      assert asked.candidates[j] == c;
      OwnAreSeen(t, s.fates(k), asked.candidates, 0, g.p, View(asked.seen, {}, asked.reasons), s.dry, j);
      ThreadsRemember(next, s, k + 1, t.id);
    }
  }

  /** A run that does not run out of room remembers every own or empty comment of the threads it reads whole. */
  lemma OwnCommentsAreRemembered(st: State, s: Session, n: nat, c: Comment)
    requires n < |s.threads| && Room(st, s) > 0 && !RunOnce(st, s).p.outOfRoom
    requires s.threads[n].source != Mentioned && !(s.threads[n].count == Some(0) && s.threads[n].mentions == [])
    requires c in s.threads[n].comments && (c.ours || c.empty)
    ensures c.id in SeenIn(RunOnce(st, s).seen, s.threads[n].id)
  {
    ThreadsSeeOwn(Begin(st, Room(st, s)), s, 0, n, c);
  }

  lemma {:induction false} OwnChangeNoCounter(t: Thread, fates: Fates, cs: seq<Comment>, i: nat, p: Progress, v: View, dry: bool)
    requires i <= |cs| && forall c :: c in cs ==> Silent(c)
    ensures Comments(p, v, cs, i, t.id, fates, dry).0 in {p, p.(outOfRoom := true)}
    decreases |cs| - i
  {
    hide Consider;
    if i < |cs| && p.room > 0 {
      assert cs[i] in cs;
      ConsiderMeans(p, v, cs[i], t.id, fates(i), dry);
      OwnChangeNoCounter(t, fates, cs, i + 1, p, Consider(p, v, cs[i], t.id, fates(i), dry).1, dry);
    }
  }

  lemma {:induction false} OwnThreadsChangeNothing(g: Going, s: Session, k: nat)
    requires k <= |s.threads|
    requires forall t, c :: t in s.threads && Asks(t, c) ==> Silent(c)
    ensures Threads(g, s, k).p in {g.p, g.p.(outOfRoom := true)}
    decreases |s.threads| - k
  {
    hide Comments, WhatIsAsked, Silent, Asks;
    if k < |s.threads| {
      var t := s.threads[k];
      assert t in s.threads;
      if !g.p.outOfRoom && !NothingToRead(t) {
        var asked := WhatIsAsked(t, SeenIn(g.seen, t.id));
        CandidatesArePlaced(t, SeenIn(g.seen, t.id));
        OwnChangeNoCounter(t, s.fates(k), asked.candidates, 0, g.p, View(asked.seen, {}, asked.reasons), s.dry);
      }
      OwnThreadsChangeNothing(OneThread(g, t, s.fates(k), s.dry), s, k + 1);
    }
  }

  /** A run that meets only own or empty comments replies to nobody and counts nothing. */
  lemma OwnCommentsChangeNothing(st: State, s: Session)
    requires forall t, c :: t in s.threads && Asks(t, c) ==> c.ours || c.empty
    ensures var p := RunOnce(st, s).p;
            p.replies == [] && p.tries == st.tries && p.days == st.days && p.skips == Skips(0, 0, 0, 0) && p.marks == []
  {
    if Room(st, s) > 0 {
      OwnThreadsChangeNothing(Begin(st, Room(st, s)), s, 0);
    }
  }

  // ----- the outcome of a thread -----

  function FlagRank(f: Flag): nat {
    match f case Replied => 0 case WouldReply => 1 case Skipped => 2 case Failed => 3
  }

  /** The order of the reasons, the one nearest to an answer first. */
  function ReasonRank(r: Reason): nat {
    match r
    case MentionUnavailable => 0
    case TargetMissing => 1
    case OursOrEmpty => 2
    case AlreadySeen => 3
    case OutOfRoom => 4
    case NoComments => 5
  }

  /** A thread's outcome is the best that happened in it, or the first reason why nothing did. */
  lemma OutcomeMeans(flags: set<Flag>, reasons: set<Reason>)
    ensures var o := PostOutcome(flags, reasons);
            && (o.Considered? <==> flags != {})
            && (o.Considered? ==> o.flag in flags && forall f :: f in flags ==> FlagRank(o.flag) <= FlagRank(f))
            && (o.Unconsidered? ==> o.reason in reasons || o.reason == NoComments)
            && (o.Unconsidered? ==> forall r :: r in reasons ==> ReasonRank(o.reason) <= ReasonRank(r))
  {
    forall f | f in flags ensures f.Replied? || f.WouldReply? || f.Skipped? || f.Failed? {
    }
    forall r | r in reasons
      ensures r.MentionUnavailable? || r.TargetMissing? || r.OursOrEmpty? || r.AlreadySeen? || r.OutOfRoom? || r.NoComments?
    {
    }
  }
}
