/**
 The posting guards of agents/syndicate.py: a cap per process and a cap per UTC day, over a
 counter file that keeps fourteen days. The protocol lets any number of processes overlap,
 run across midnight, die after a thread, or fail to write the counter.
 */
module PostingCaps {
  import opened Common

  const MAX_POSTS_PER_RUN := 2
  const MAX_POSTS_PER_DAY := 4
  const DAYS_KEPT := 14

  type Day = int
  type Days = map<Day, nat>

  function At(days: Days, d: Day): nat {
    if d in days then days[d] else 0
  }

  function Later(days: Days, d: Day): set<Day> {
    set e | e in days && e > d
  }

  function Trim(days: Days): Days {
    map d | d in days && |Later(days, d)| < DAYS_KEPT :: days[d]
  }

  /** One more post on a day, and only the fourteen latest days kept. */
  function Counted(days: Days, day: Day): Days {
    Trim(days[day := At(days, day) + 1])
  }

  predicate MayPost(posts: nat, days: Days, day: Day) {
    posts < MAX_POSTS_PER_RUN && At(days, day) < MAX_POSTS_PER_DAY
  }

  // ----- the program -----

  predicate Increasing(s: seq<Day>) {
    forall i, j :: 0 <= i < j < |s| ==> s[i] < s[j]
  }

  lemma HasMember(keys: set<Day>)
    requires keys != {}
    ensures exists d :: d in keys
  {
    if forall d :: d !in keys {
      assert false;
    }
  }

  method Least(keys: set<Day>) returns (least: Day)
    requires keys != {}
    ensures least in keys && forall d :: d in keys ==> least <= d
  {
    HasMember(keys);
    least :| least in keys;
    var rest := keys - {least};
    while rest != {}
      invariant rest <= keys && least in keys
      invariant forall d :: d in keys && d !in rest ==> least <= d
      decreases |rest|
    {
      HasMember(rest);
      var d :| d in rest;
      rest := rest - {d};
      if d < least {
        least := d;
      }
    }
  }

  method Sorted(days: Days) returns (s: seq<Day>)
    ensures Increasing(s) && forall d :: d in s <==> d in days
  {
    s := [];
    var rest := days.Keys;
    while rest != {}
      invariant Increasing(s)
      invariant forall d :: d in days <==> d in s || d in rest
      invariant forall i, d :: 0 <= i < |s| && d in rest ==> s[i] < d
      decreases |rest|
    {
      var least := Least(rest);
      s := s + [least];
      rest := rest - {least};
    }
  }

  lemma {:induction false} SizeOfIncreasing(s: seq<Day>)
    requires Increasing(s)
    ensures |Elements(s)| == |s|
  {
    if s != [] {
      var init, last := s[..|s| - 1], s[|s| - 1];
      assert s == init + [last];
      SizeOfIncreasing(init);
      assert Elements(s) == Elements(init) + {last};
    }
  }

  /** In the sorted list of days, the days later than an entry are those behind it. */
  lemma LaterInSorted(days: Days, s: seq<Day>, i: nat)
    requires Increasing(s) && (forall d :: d in s <==> d in days) && i < |s|
    ensures |Later(days, s[i])| == |s| - 1 - i
  {
    SizeOfIncreasing(s[i + 1..]);
    assert Later(days, s[i]) == Elements(s[i + 1..]);
  }

  class PostingGuards {
    var days: Days
    var runPosts: nat

    constructor (days: Days)
      ensures this.days == days && runPosts == 0
    {
      this.days, runPosts := days, 0;
    }

    /** `refused`: the counter cannot be read, or the spending breaker is closed. */
    method PostGuard(day: Day, refused: bool) returns (ok: bool)
      ensures ok <==> !refused && runPosts < 2 && At(days, day) < 4
    {
      ok := false;
      if runPosts < MAX_POSTS_PER_RUN {
        var today := At(days, day);
        ok := today < MAX_POSTS_PER_DAY && !refused;
      }
    }

    method DropOldest(counted: Days) returns (kept: Days)
      ensures kept == Trim(counted)
    {
      var s := Sorted(counted);
      kept := counted;
      var i := 0;
      while i + DAYS_KEPT < |s|
        invariant 0 <= i <= |s|
        invariant i == 0 || i + DAYS_KEPT <= |s|
        invariant kept == counted - (set j | 0 <= j < i :: s[j])
      {
        kept := kept - {s[i]};
        i := i + 1;
      }
      forall d | d in counted ensures d in kept <==> |Later(counted, d)| < DAYS_KEPT {
        var j :| 0 <= j < |s| && s[j] == d;
        LaterInSorted(counted, s, j);
      }
    }

    /** `stored`: the counter could be read and written back. The process counts its post either way. */
    method NotePost(day: Day, stored: bool)
      modifies this
      ensures runPosts == old(runPosts) + 1
      ensures days == if stored then Counted(old(days), day) else old(days)
    {
      runPosts := runPosts + 1;
      if stored {
        days := DropOldest(days[day := At(days, day) + 1]);
      }
    }
  }

  // ----- trimming -----

  /** The count just written survives the trimming exactly when fewer than fourteen later days stand in the file. */
  lemma TodayIsKept(days: Days, day: Day)
    ensures day in Counted(days, day) <==> |Later(days, day)| < 14
    ensures |Later(days, day)| < 14 ==> At(Counted(days, day), day) == At(days, day) + 1
  {
    assert Later(days[day := At(days, day) + 1], day) == Later(days, day);
  }

  lemma OthersAreKept(days: Days, day: Day, d: Day)
    requires d != day
    ensures At(Counted(days, day), d) <= At(days, d)
    ensures d in Counted(days, day) ==> d in days
  {
  }

  // ----- the protocol -----

  type Pid = nat

  datatype Phase = Ready | Cleared | Out(sentOn: Day)

  /** `posts` is the process's own counter, `threads` what it really sent. */
  datatype Proc = Proc(posts: nat, threads: nat, phase: Phase)

  /** `sent` and `lost` are the history: threads by the day they went out, and those never counted. */
  datatype State = State(today: Day, days: Days, procs: map<Pid, Proc>, sent: Days, lost: Days)

  datatype Step =
    | NextDay(day: Day)
    | Launch(p: Pid)
    | Guard(p: Pid, refused: bool)
    | NoThread(p: Pid)
    | Send(p: Pid)
    | NotePost(p: Pid, stored: bool)
    | Die(p: Pid)

  predicate Can(s: State, step: Step) {
    match step
    case NextDay(day) => day > s.today
    case Launch(p) => p !in s.procs
    case Guard(p, _) => p in s.procs && s.procs[p].phase.Ready?
    case NoThread(p) => p in s.procs && s.procs[p].phase.Cleared?
    case Send(p) => p in s.procs && s.procs[p].phase.Cleared?
    case NotePost(p, _) => p in s.procs && s.procs[p].phase.Out?
    case Die(p) => p in s.procs
  }

  function Add(m: Days, d: Day): Days {
    m[d := At(m, d) + 1]
  }

  function Do(s: State, step: Step): State
    requires Can(s, step)
  {
    match step
    case NextDay(day) => s.(today := day)
    case Launch(p) => s.(procs := s.procs[p := Proc(0, 0, Ready)])
    case Guard(p, refused) =>
      var proc := s.procs[p];
      if !refused && MayPost(proc.posts, s.days, s.today) then s.(procs := s.procs[p := proc.(phase := Cleared)]) else s
    case NoThread(p) => s.(procs := s.procs[p := s.procs[p].(phase := Ready)])
    case Send(p) =>
      var proc := s.procs[p];
      s.(procs := s.procs[p := proc.(phase := Out(s.today), threads := proc.threads + 1)], sent := Add(s.sent, s.today))
    case NotePost(p, stored) =>
      var proc := s.procs[p];
      var t := s.(procs := s.procs[p := proc.(phase := Ready, posts := proc.posts + 1)]);
      if stored then t.(days := Counted(s.days, s.today)) else t.(lost := Add(s.lost, proc.phase.sentOn))
    case Die(p) =>
      var t := s.(procs := s.procs - {p});
      if s.procs[p].phase.Out? then t.(lost := Add(s.lost, s.procs[p].phase.sentOn)) else t
  }

  /** The processes between a passed guard and the count of their thread. */
  function InFlight(s: State): set<Pid> {
    set p | p in s.procs && !s.procs[p].phase.Ready?
  }

  function Uncounted(s: State): set<Pid> {
    set p | p in s.procs && s.procs[p].phase == Out(s.today)
  }

  /** A run in which at most `k` processes are in flight at any time. */
  ghost predicate Legal(s: State, steps: seq<Step>, k: nat)
    decreases |steps|
  {
    |InFlight(s)| <= k
    && (steps == [] || (Can(s, steps[0]) && Legal(Do(s, steps[0]), steps[1..], k)))
  }

  function Run(s: State, steps: seq<Step>, k: nat): State
    requires Legal(s, steps, k)
    decreases |steps|
  {
    if steps == [] then s else Run(Do(s, steps[0]), steps[1..], k)
  }

  ghost predicate Start(s: State) {
    && (forall d :: d in s.days ==> d <= s.today)
    && At(s.days, s.today) <= MAX_POSTS_PER_DAY
    && s.procs == map[] && s.sent == map[] && s.lost == map[]
  }

  ghost predicate DaysFit(s: State, k: nat) {
    && (forall d :: d in s.days ==> d <= s.today)
    && (forall d :: d > s.today ==> At(s.sent, d) == 0)
    && At(s.sent, s.today) <= At(s.days, s.today) + |Uncounted(s)| + At(s.lost, s.today)
    && At(s.days, s.today) + |InFlight(s)| <= MAX_POSTS_PER_DAY - 1 + k
    && (forall d :: d < s.today ==> At(s.sent, d) <= MAX_POSTS_PER_DAY - 1 + k + At(s.lost, d))
  }

  ghost predicate RunsFit(s: State) {
    forall p :: p in s.procs ==>
      var proc := s.procs[p];
      && proc.threads == proc.posts + (if proc.phase.Out? then 1 else 0)
      && proc.posts <= MAX_POSTS_PER_RUN
      && (!proc.phase.Ready? ==> proc.posts < MAX_POSTS_PER_RUN)
  }

  lemma AddsOne(m: Days, d: Day)
    ensures forall e :: At(Add(m, d), e) == if e == d then At(m, e) + 1 else At(m, e)
  {
  }

  lemma FlightChanges(s: State, step: Step)
    requires Can(s, step) && (step.NotePost? || step.Die?)
    ensures var t, phase := Do(s, step), s.procs[step.p].phase;
            && InFlight(t) == InFlight(s) - {step.p} && Uncounted(t) == Uncounted(s) - {step.p}
            && (step.p in InFlight(s) <==> !phase.Ready?)
            && (step.p in Uncounted(s) <==> phase.Out? && phase.sentOn == s.today)
  {
  }

  lemma NoteKeepsDays(s: State, p: Pid, stored: bool, k: nat)
    requires DaysFit(s, k) && Can(s, NotePost(p, stored))
    ensures DaysFit(Do(s, NotePost(p, stored)), k)
  {
    hide Counted, Later, At, Add, InFlight, Uncounted;
    var t := Do(s, NotePost(p, stored));
    FlightChanges(s, NotePost(p, stored));
    if stored {
      NoLater(s.days, s.today);
      TodayIsKept(s.days, s.today);
      forall d | d in t.days ensures d <= s.today {
        if d != s.today {
          OthersAreKept(s.days, s.today, d);
        }
      }
    } else {
      AddsOne(s.lost, s.procs[p].phase.sentOn);
    }
  }

  lemma SendKeepsDays(s: State, p: Pid, k: nat)
    requires DaysFit(s, k) && Can(s, Send(p))
    ensures DaysFit(Do(s, Send(p)), k)
  {
    hide At, Add;
    var t := Do(s, Send(p));
    AddsOne(s.sent, s.today);
    assert InFlight(t) == InFlight(s) && Uncounted(t) == Uncounted(s) + {p};
    assert p !in Uncounted(s);
  }

  lemma DeathKeepsDays(s: State, p: Pid, k: nat)
    requires DaysFit(s, k) && Can(s, Die(p))
    ensures DaysFit(Do(s, Die(p)), k)
  {
    hide At, Add, InFlight, Uncounted;
    FlightChanges(s, Die(p));
    if s.procs[p].phase.Out? {
      AddsOne(s.lost, s.procs[p].phase.sentOn);
    }
  }

  lemma DayKeepsDays(s: State, day: Day, k: nat)
    requires DaysFit(s, k) && Can(s, NextDay(day)) && |InFlight(s)| <= k
    ensures DaysFit(Do(s, NextDay(day)), k)
  {
    var t := Do(s, NextDay(day));
    SubsetSize(Uncounted(s), InFlight(s));
    assert InFlight(t) == InFlight(s);
    assert At(s.days, day) == 0;
  }

  /** Launching, the guard, and a thread the network refuses: no thread and no count changes. */
  lemma QuietKeepsDays(s: State, step: Step, k: nat)
    requires DaysFit(s, k) && Can(s, step) && |InFlight(Do(s, step))| <= k
    requires step.Launch? || step.Guard? || step.NoThread?
    ensures DaysFit(Do(s, step), k)
  {
    var t := Do(s, step);
    assert Uncounted(t) == Uncounted(s);
    assert InFlight(t) == InFlight(s) || step.Guard? || InFlight(t) == InFlight(s) - {step.p};
  }

  lemma StepKeepsDays(s: State, step: Step, k: nat)
    requires DaysFit(s, k) && Can(s, step) && |InFlight(s)| <= k && |InFlight(Do(s, step))| <= k
    ensures DaysFit(Do(s, step), k)
  {
    hide DaysFit, InFlight, Do;
    match step {
      case NextDay(day) => DayKeepsDays(s, day, k);
      case Send(p) => SendKeepsDays(s, p, k);
      case NotePost(p, stored) => NoteKeepsDays(s, p, stored, k);
      case Die(p) => DeathKeepsDays(s, p, k);
      case _ => QuietKeepsDays(s, step, k);
    }
  }

  lemma NoLater(days: Days, day: Day)
    requires forall d :: d in days ==> d <= day
    ensures Later(days, day) == {}
  {
  }

  lemma {:induction false} RunKeepsDays(s: State, steps: seq<Step>, k: nat)
    requires DaysFit(s, k) && Legal(s, steps, k)
    ensures DaysFit(Run(s, steps, k), k)
    decreases |steps|
  {
    if steps != [] {
      StepKeepsDays(s, steps[0], k);
      RunKeepsDays(Do(s, steps[0]), steps[1..], k);
    }
  }

  /**
   With at most `k` processes in flight, no UTC day sees more than 3 + k threads beyond those
   whose count was lost; one at a time gives the promised four.
   */
  lemma ThreadsPerDay(s: State, steps: seq<Step>, k: nat, d: Day)
    requires Start(s) && Legal(s, steps, k) && k >= 1
    ensures At(Run(s, steps, k).sent, d) <= 3 + k + At(Run(s, steps, k).lost, d)
  {
    assert InFlight(s) == {};
    RunKeepsDays(s, steps, k);
    var t := Run(s, steps, k);
    SubsetSize(Uncounted(t), InFlight(t));
  }

  lemma StepKeepsRuns(s: State, step: Step)
    requires RunsFit(s) && Can(s, step)
    ensures RunsFit(Do(s, step))
  {
    hide At, Counted, Add;
  }

  /** Whatever overlaps or fails, one process sends at most two threads. */
  lemma {:induction false} ThreadsPerRun(s: State, steps: seq<Step>, k: nat)
    requires RunsFit(s) && Legal(s, steps, k)
    ensures var t := Run(s, steps, k);
            RunsFit(t) && forall p :: p in t.procs ==> t.procs[p].threads <= 2
    decreases |steps|
  {
    if steps != [] {
      hide RunsFit, Do;
      StepKeepsRuns(s, steps[0]);
      ThreadsPerRun(Do(s, steps[0]), steps[1..], k);
    }
  }
}
