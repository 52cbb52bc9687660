/**
 One run of agents/ambassador.py over its threads: which comments are looked at, which draw
 a reply, and the one outcome every thread ends with.
 */
module Ambassador {
  import opened Common
  import opened CommentGate

  type Author = string

  datatype Comment = Comment(id: Id, author: Author, ours: bool, empty: bool)

  datatype Source = Own | Commented | Mentioned

  /** A thread as found: its comments in reading order, and the post itself as something to answer. */
  datatype Thread = Thread(id: Id, source: Source, count: Option<nat>, mentions: seq<Id>, comments: seq<Comment>,
                           asComment: Option<Comment>)

  /** What the texts, the drafter, the gate and the network decide about one comment. */
  datatype Posting = Withheld | NotPosted | Posted(day: Day)
  datatype Fate =
    | LowEffort
    | OffTopic
    | RateLimited
    | NoDraft
    | Discarded                                  // the redraft repeats itself
    | Refused(fallback: bool, posting: Posting)  // the gate refused; the last resort may still pass
    | Passed(posting: Posting)

  datatype Flag = Replied | WouldReply | Skipped | Failed
  datatype Reason = MentionUnavailable | TargetMissing | OursOrEmpty | AlreadySeen | OutOfRoom | NoComments
  datatype Outcome = Considered(flag: Flag) | Unconsidered(reason: Reason)

  datatype Reply = Reply(thread: Id, comment: Id, author: Author, day: Day)
  datatype Skips = Skips(lowEffort: nat, offTopic: nat, rateLimit: nat, gate: nat)

  /** What happened to the refusal counter of a comment. */
  datatype Mark = Refusal(id: Id) | Reset(id: Id)

  /** The state of a run across threads, and of the thread it is in. */
  datatype Progress = Progress(tries: Tries, days: Days, room: nat, answered: set<Author>, replies: seq<Reply>,
                               skips: Skips, marks: seq<Mark>, outOfRoom: bool)
  datatype View = View(seen: set<Id>, flags: set<Flag>, reasons: set<Reason>)

  // ----- one comment -----

  function Settle(v: View, id: Id, flag: Flag): View {
    v.(seen := v.seen + {id}, flags := v.flags + {flag})
  }

  function Clear(p: Progress, id: Id): Progress {
    p.(tries := ClearAttempt(p.tries, id), marks := p.marks + [Reset(id)])
  }

  /** The counters given up for a new one start again should their comment return. */
  function Evicted(tries: Tries, id: Id): seq<Mark> {
    var more := Bump(tries, id);
    seq(Surplus(more), i requires 0 <= i < Surplus(more) => Reset(more[i].id))
  }

  function CountRefusal(p: Progress, id: Id): Progress {
    p.(tries := NoteAttempt(p.tries, id), marks := p.marks + Evicted(p.tries, id) + [Refusal(id)])
  }

  function Deliver(p: Progress, v: View, c: Comment, thread: Id, posting: Posting): (Progress, View) {
    match posting
    case Withheld => (p, v.(flags := v.flags + {Failed}))
    case NotPosted => (p, Settle(v, c.id, Failed))
    case Posted(day) =>
      (p.(room := if p.room > 0 then p.room - 1 else 0,
          answered := p.answered + {c.author},
          replies := p.replies + [Reply(thread, c.id, c.author, day)],
          days := CountComment(p.days, day)),
       Settle(v, c.id, Replied))
  }

  function GateSkip(p: Progress): Progress {
    p.(skips := p.skips.(gate := p.skips.gate + 1))
  }

  /** A comment past every filter. */
  function Draft(p: Progress, v: View, c: Comment, thread: Id, f: Fate): (Progress, View) {
    match f
    case Discarded => (GateSkip(Clear(p, c.id)), Settle(v, c.id, Skipped))
    case Refused(fallback, posting) =>
      var noted := CountRefusal(p, c.id);
      if Count(noted.tries, c.id) < GATE_MAX_ATTEMPTS then (GateSkip(noted), v.(flags := v.flags + {Skipped}))
      else if !fallback then (GateSkip(Clear(noted, c.id)), Settle(v, c.id, Skipped))
      else Deliver(Clear(noted, c.id), v, c, thread, posting)
    case Passed(posting) => Deliver(Clear(p, c.id), v, c, thread, posting)
    case _ => (p, Settle(v, c.id, Failed))
  }

  function RateSkip(p: Progress): Progress {
    p.(skips := p.skips.(rateLimit := p.skips.rateLimit + 1))
  }

  function Consider(p: Progress, v: View, c: Comment, thread: Id, f: Fate, dry: bool): (Progress, View) {
    if c.id in v.seen then (p, v.(reasons := v.reasons + {AlreadySeen}))
    else if c.ours || c.empty then (p, v.(seen := v.seen + {c.id}, reasons := v.reasons + {OursOrEmpty}))
    else if f.LowEffort? then (p.(skips := p.skips.(lowEffort := p.skips.lowEffort + 1)), Settle(v, c.id, Skipped))
    else if f.OffTopic? then (p.(skips := p.skips.(offTopic := p.skips.offTopic + 1)), Settle(v, c.id, Skipped))
    else if c.author in p.answered then (RateSkip(p), v.(flags := v.flags + {Skipped}))
    else if f.RateLimited? then (RateSkip(p), Settle(v, c.id, Skipped))
    else if dry then (p, v.(flags := v.flags + {WouldReply}))
    else Draft(p, v, c, thread, f)
  }

  // ----- one thread -----

  /** What a thread asks of us: all its comments, or only what mentions us. */
  datatype Asked = Asked(candidates: seq<Comment>, seen: set<Id>, reasons: set<Reason>)

  /** The last comment with an id, as a table built from left to right holds it. */
  function ById(comments: seq<Comment>, id: Id): Option<Comment> {
    if comments == [] then None
    else if comments[|comments| - 1].id == id then Some(comments[|comments| - 1])
    else ById(comments[..|comments| - 1], id)
  }

  function AddMention(a: Asked, t: Thread, target: Id): Asked {
    if target in a.seen then a.(reasons := a.reasons + {AlreadySeen})
    else if target == t.id then
      if t.asComment.None? then a.(seen := a.seen + {target}, reasons := a.reasons + {MentionUnavailable})
      else a.(candidates := a.candidates + [t.asComment.value])
    else if t.source != Mentioned then a
    else if ById(t.comments, target).Some? then a.(candidates := a.candidates + [ById(t.comments, target).value])
    else a.(reasons := a.reasons + {TargetMissing})
  }

  function AddMentions(a: Asked, t: Thread, targets: seq<Id>): Asked
    decreases |targets|
  {
    if targets == [] then a else AddMentions(AddMention(a, t, targets[0]), t, targets[1..])
  }

  function WhatIsAsked(t: Thread, seen: set<Id>): Asked {
    AddMentions(Asked(if t.source == Mentioned then [] else t.comments, seen, {}), t, t.mentions)
  }

  type Fates = nat -> Fate

  function Comments(p: Progress, v: View, cs: seq<Comment>, i: nat, thread: Id, fates: Fates, dry: bool): (Progress, View)
    requires i <= |cs|
    decreases |cs| - i
  {
    if i == |cs| then (p, v)
    else if p.room == 0 then (p.(outOfRoom := true), v.(reasons := v.reasons + {OutOfRoom}))
    else
      var (p', v') := Consider(p, v, cs[i], thread, fates(i), dry);
      Comments(p', v', cs, i + 1, thread, fates, dry)
  }

  /** What happened to the best-placed comment, or why none was looked at. */
  function PostOutcome(flags: set<Flag>, reasons: set<Reason>): Outcome {
    if Replied in flags then Considered(Replied)
    else if WouldReply in flags then Considered(WouldReply)
    else if Skipped in flags then Considered(Skipped)
    else if Failed in flags then Considered(Failed)
    else if MentionUnavailable in reasons then Unconsidered(MentionUnavailable)
    else if TargetMissing in reasons then Unconsidered(TargetMissing)
    else if OursOrEmpty in reasons then Unconsidered(OursOrEmpty)
    else if AlreadySeen in reasons then Unconsidered(AlreadySeen)
    else if OutOfRoom in reasons then Unconsidered(OutOfRoom)
    else Unconsidered(NoComments)
  }

  type Seen = map<Id, set<Id>>

  function SeenIn(seen: Seen, thread: Id): set<Id> {
    if thread in seen then seen[thread] else {}
  }

  datatype Going = Going(p: Progress, seen: Seen, outcomes: seq<Outcome>)

  predicate NothingToRead(t: Thread) {
    t.count == Some(0) && t.mentions == []
  }

  function OneThread(g: Going, t: Thread, fates: Fates, dry: bool): Going {
    if g.p.outOfRoom then g.(outcomes := g.outcomes + [PostOutcome({}, {OutOfRoom})])
    else if NothingToRead(t) then g.(outcomes := g.outcomes + [PostOutcome({}, {NoComments})])
    else
      var asked := WhatIsAsked(t, SeenIn(g.seen, t.id));
      var (p, v) := Comments(g.p, View(asked.seen, {}, asked.reasons), asked.candidates, 0, t.id, fates, dry);
      Going(p, g.seen[t.id := v.seen], g.outcomes + [PostOutcome(v.flags, v.reasons)])
  }

  // ----- one run -----

  datatype State = State(seen: Seen, tries: Tries, days: Days)

  /** What a missing or unreadable state file is read as. */
  const BLANK := State(map[], [], map[])

  /**
   A run may die on its way, with so many replies posted and so many refusal counters changed,
   or while it writes its state at the very end, which leaves a file that cannot be read.
   */
  datatype Ending = Completes | Dies(replies: nat, marks: nat) | Tears

  /** `fates(k)` decides about the comments of the k-th thread, by their place among the candidates. */
  datatype Session = Session(mode: Mode, today: Day, dry: bool, threads: seq<Thread>, fates: nat -> Fates, ends: Ending)

  function Begin(st: State, room: nat): Going {
    Going(Progress(st.tries, st.days, room, {}, [], Skips(0, 0, 0, 0), [], false), st.seen, [])
  }

  function Threads(g: Going, s: Session, k: nat): Going
    requires k <= |s.threads|
    decreases |s.threads| - k
  {
    if k == |s.threads| then g else Threads(OneThread(g, s.threads[k], s.fates(k), s.dry), s, k + 1)
  }

  function Room(st: State, s: Session): nat {
    RunAllowance(s.mode, st.days, s.today)
  }

  /** A run without room reads nothing. */
  function RunOnce(st: State, s: Session): Going {
    if Room(st, s) == 0 then Begin(st, 0) else Threads(Begin(st, Room(st, s)), s, 0)
  }

  /** The run breaks off while it writes its state; a dry run writes none. */
  predicate Wipes(s: Session) {
    s.ends.Tears? && !s.dry
  }

  /** The state file is written once, after the run, and not at all after a dry run or by a run that dies before. */
  function Saved(st: State, s: Session): State {
    if s.dry || s.ends.Dies? then st
    else if Wipes(s) then BLANK
    else
      var g := RunOnce(st, s);
      State(g.seen, g.p.tries, g.p.days)
  }

  function UpTo<T>(s: seq<T>, n: Option<nat>): seq<T> {
    if n.Some? && n.value < |s| then s[..n.value] else s
  }

  /** The replies a run posted, up to its end: a dying run has posted the first ones. */
  function Posts(st: State, s: Session): seq<Reply> {
    UpTo(RunOnce(st, s).p.replies, if s.ends.Dies? then Some(s.ends.replies) else None)
  }

  /** What it did to the refusal counters in memory. */
  function Marks(st: State, s: Session): seq<Mark> {
    UpTo(RunOnce(st, s).p.marks, if s.ends.Dies? then Some(s.ends.marks) else None)
  }

  // ----- the program -----

  class Agent {
    const gate: Gate
    var seenComments: Seen
    var room: nat
    var answered: set<Author>
    var replies: seq<Reply>
    var skips: Skips
    var outOfRoom: bool
    var outcomes: seq<Outcome>
    ghost var marks: seq<Mark>

    ghost function Now(): Progress
      reads this, gate
    {
      Progress(gate.tries, gate.days, room, answered, replies, skips, marks, outOfRoom)
    }

    ghost function Contents(): State
      reads this, gate
    {
      State(seenComments, gate.tries, gate.days)
    }

    /** What the counters of refused drafts need, and every step keeps. */
    ghost predicate Valid()
      reads gate
    {
      Fits(gate.tries)
    }

    constructor (st: State)
      requires Fits(st.tries)
      ensures Valid() && Contents() == st
    {
      gate := new Gate(st.tries, st.days);
      seenComments := st.seen;
      room, answered, replies, skips, outOfRoom, outcomes, marks := 0, {}, [], Skips(0, 0, 0, 0), false, [], [];
    }

    method Post(v: View, c: Comment, thread: Id, posting: Posting) returns (w: View)
      requires Valid() && room > 0
      modifies `room, `answered, `replies, gate`days
      ensures Valid() && (Now(), w) == Deliver(old(Now()), v, c, thread, posting)
    {
      if posting.Withheld? {
        return v.(flags := v.flags + {Failed});
      }
      if posting.NotPosted? {
        return Settle(v, c.id, Failed);
      }
      replies := replies + [Reply(thread, c.id, c.author, posting.day)];
      room := room - 1;
      answered := answered + {c.author};
      gate.CountOne(posting.day);
      w := Settle(v, c.id, Replied);
    }

    /** A comment past every filter: draft, gate, last resort, post. */
    method Answer(v: View, c: Comment, thread: Id, f: Fate) returns (w: View)
      requires Valid() && room > 0
      modifies `room, `answered, `replies, `skips, `marks, gate
      ensures Valid() && (Now(), w) == Draft(old(Now()), v, c, thread, f)
    {
      hide ClearAttempt, NoteAttempt, CountComment, Evicted, Deliver, Count, Fits;
      AttemptsStayInBounds(gate.tries, c.id);
      FitsIsTracked(gate.tries);
      match f {
        case Discarded =>
          gate.Clear(c.id);
          marks := marks + [Reset(c.id)];
          skips := skips.(gate := skips.gate + 1);
          w := Settle(v, c.id, Skipped);
        case Refused(fallback, posting) =>
          marks := marks + Evicted(gate.tries, c.id) + [Refusal(c.id)];
          var tries := gate.Note(c.id);
          if tries < GATE_MAX_ATTEMPTS {
            skips := skips.(gate := skips.gate + 1);
            return v.(flags := v.flags + {Skipped});
          }
          gate.Clear(c.id);
          marks := marks + [Reset(c.id)];
          if !fallback {
            skips := skips.(gate := skips.gate + 1);
            return Settle(v, c.id, Skipped);
          }
          w := Post(v, c, thread, posting);
        case Passed(posting) =>
          gate.Clear(c.id);
          marks := marks + [Reset(c.id)];
          w := Post(v, c, thread, posting);
        case _ =>
          w := Settle(v, c.id, Failed);
      }
    }

    method LookAt(v: View, c: Comment, thread: Id, f: Fate, dry: bool) returns (w: View)
      requires Valid() && room > 0
      modifies `room, `answered, `replies, `skips, `marks, gate
      ensures Valid() && (Now(), w) == Consider(old(Now()), v, c, thread, f, dry)
    {
      hide Draft, Fits;
      if c.id in v.seen {
        return v.(reasons := v.reasons + {AlreadySeen});
      }
      if c.ours || c.empty {
        return v.(seen := v.seen + {c.id}, reasons := v.reasons + {OursOrEmpty});
      }
      if f.LowEffort? {
        skips := skips.(lowEffort := skips.lowEffort + 1);
        return Settle(v, c.id, Skipped);
      }
      if f.OffTopic? {
        skips := skips.(offTopic := skips.offTopic + 1);
        return Settle(v, c.id, Skipped);
      }
      if c.author in answered {
        skips := skips.(rateLimit := skips.rateLimit + 1);
        return v.(flags := v.flags + {Skipped});
      }
      if f.RateLimited? {
        skips := skips.(rateLimit := skips.rateLimit + 1);
        return Settle(v, c.id, Skipped);
      }
      if dry {
        return v.(flags := v.flags + {WouldReply});
      }
      w := Answer(v, c, thread, f);
    }

    method ReadComments(v: View, cs: seq<Comment>, thread: Id, fates: Fates, dry: bool) returns (w: View)
      requires Valid()
      modifies `room, `answered, `replies, `skips, `marks, `outOfRoom, gate
      ensures Valid() && (Now(), w) == Comments(old(Now()), v, cs, 0, thread, fates, dry)
    {
      hide Consider, Fits;
      w := v;
      var i := 0;
      while i < |cs|
        invariant 0 <= i <= |cs| && Valid()
        invariant Comments(Now(), w, cs, i, thread, fates, dry) == Comments(old(Now()), v, cs, 0, thread, fates, dry)
      {
        if room == 0 {
          outOfRoom := true;
          return w.(reasons := w.reasons + {OutOfRoom});
        }
        w := LookAt(w, cs[i], thread, fates(i), dry);
        i := i + 1;
      }
    }

    /** What a thread asks of us, from its comments and the mentions in it. */
    method CollectAsked(t: Thread, seen: set<Id>) returns (a: Asked)
      ensures a == WhatIsAsked(t, seen)
    {
      hide AddMention;
      a := Asked(if t.source == Mentioned then [] else t.comments, seen, {});
      var i := 0;
      while i < |t.mentions|
        invariant 0 <= i <= |t.mentions|
        invariant AddMentions(a, t, t.mentions[i..]) == WhatIsAsked(t, seen)
      {
        assert t.mentions[i..][1..] == t.mentions[i + 1..];
        a := AddMention(a, t, t.mentions[i]);
        i := i + 1;
      }
    }

    method ReadThread(t: Thread, fates: Fates, dry: bool)
      requires Valid()
      modifies this, gate
      ensures Valid()
      ensures Going(Now(), seenComments, outcomes) == OneThread(old(Going(Now(), seenComments, outcomes)), t, fates, dry)
    {
      hide Comments, WhatIsAsked, Fits;
      if outOfRoom {
        outcomes := outcomes + [PostOutcome({}, {OutOfRoom})];
        return;
      }
      if t.count == Some(0) && |t.mentions| == 0 {
        outcomes := outcomes + [PostOutcome({}, {NoComments})];
        return;
      }
      var asked := CollectAsked(t, SeenIn(seenComments, t.id));
      var v := ReadComments(View(asked.seen, {}, asked.reasons), asked.candidates, t.id, fates, dry);
      seenComments := seenComments[t.id := v.seen];
      outcomes := outcomes + [PostOutcome(v.flags, v.reasons)];
    }

    /** The whole run; a caller that is not in a dry run writes the state afterwards. */
    method CmdRun(s: Session)
      requires Valid()
      modifies this, gate
      ensures Valid()
      ensures Going(Now(), seenComments, outcomes) == RunOnce(old(Contents()), s)
    {
      hide OneThread, Fits;
      room, answered, replies, skips, outOfRoom, outcomes, marks := 0, {}, [], Skips(0, 0, 0, 0), false, [], [];
      var allowance := RunAllowance(s.mode, gate.days, s.today);
      if allowance == 0 {
        return;
      }
      room := allowance;
      var k := 0;
      while k < |s.threads|
        invariant 0 <= k <= |s.threads| && Valid()
        invariant Threads(Going(Now(), seenComments, outcomes), s, k) == RunOnce(old(Contents()), s)
      {
        ReadThread(s.threads[k], s.fates(k), s.dry);
        k := k + 1;
      }
    }
  }

  lemma FitsIsTracked(tries: Tries)
    requires Fits(tries)
    ensures OnePerId(tries) && |tries| <= MAX_TRACKED_ATTEMPTS
  {
  }
}
