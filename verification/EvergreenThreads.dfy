/**
 How often an archive post goes out. Inside one cooldown of 90 days it goes out once, and once
 more for every thread that did not reach the register file and every record of it that was lost.
 */
module EvergreenThreads {
  import opened Common
  import opened StableSort
  import opened Evergreen
  import opened EvergreenWait

  /** What became of the register file: a failed write is logged and the run goes on. */
  datatype Disk =
    | Kept                   // every write worked
    | Refused                // no write worked, the file is as it was
    | Early(left: Register)  // the last write that worked came before the one after a thread
    | Torn                   // a write broke off; what is left reads as empty

  /** A scheduled run: the feed, the priority file, how its drafts ended, and its register file. */
  datatype Scheduled = Scheduled(feed: seq<Link>, prio: Priority, input: RunInput, readable: bool, disk: Disk)

  /** An unreadable register reads as empty. */
  function Loaded(file: Register, r: Scheduled): Register {
    if r.readable then file else map[]
  }

  function Outcomes(file: Register, r: Scheduled): Outcome {
    ScheduledRun(r.feed, r.prio, Loaded(file, r), r.input.fates, r.input.now)
  }

  /** A run writes exactly if it changes an entry. */
  predicate Writes(file: Register, r: Scheduled) {
    var out := Outcomes(file, r).reg;
    exists l :: l in out && out[l] != Of(Loaded(file, r), l)
  }

  function FileAfter(file: Register, r: Scheduled): Register {
    match r.disk
    case Kept => if Writes(file, r) then Outcomes(file, r).reg else file
    case Refused => file
    case Early(left) => left
    case Torn => map[]
  }

  function FileAfterAll(file: Register, runs: seq<Scheduled>): Register
    decreases runs
  {
    if runs == [] then file else FileAfterAll(FileAfter(file, runs[0]), runs[1..])
  }

  // ----- what is counted -----

  function One(b: bool): nat {
    if b then 1 else 0
  }

  /** The run sent the post as a thread. */
  predicate Sends(file: Register, r: Scheduled, l: Link) {
    l in Outcomes(file, r).drafted && r.input.fates(l) in {Uncounted, Unmirrored, Posted}
  }

  /** A thread is recorded if the run got to its entry and the file took it. */
  predicate Records(r: Scheduled, l: Link) {
    r.input.fates(l) == Posted && r.disk == Kept
  }

  /** The post's earlier record is lost: the file is torn, or it was read as empty and written over. */
  predicate Erases(file: Register, r: Scheduled, l: Link, end: int) {
    PostedRecently(Of(file, l), end)
    && (r.disk.Torn? || (!r.readable && (r.disk.Early? || (r.disk.Kept? && Writes(file, r)))))
  }

  function Threads(file: Register, runs: seq<Scheduled>, l: Link): nat
    decreases runs
  {
    if runs == [] then 0 else One(Sends(file, runs[0], l)) + Threads(FileAfter(file, runs[0]), runs[1..], l)
  }

  function Unrecorded(file: Register, runs: seq<Scheduled>, l: Link): nat
    decreases runs
  {
    if runs == [] then 0
    else One(Sends(file, runs[0], l) && !Records(runs[0], l)) + Unrecorded(FileAfter(file, runs[0]), runs[1..], l)
  }

  function Erased(file: Register, runs: seq<Scheduled>, l: Link, end: int): nat
    decreases runs
  {
    if runs == [] then 0 else One(Erases(file, runs[0], l, end)) + Erased(FileAfter(file, runs[0]), runs[1..], l, end)
  }

  /** An earlier version of a run's register has the posting times that were loaded. */
  ghost predicate Possible(file: Register, r: Scheduled) {
    r.disk.Early? ==> forall l :: Of(r.disk.left, l).last == Of(Loaded(file, r), l).last
                               && Of(r.disk.left, l).removed == Of(Loaded(file, r), l).removed
  }

  /** Any runs inside one cooldown, each ending with a file it can leave. */
  ghost predicate WithinOneCooldown(file: Register, runs: seq<Scheduled>, end: int)
    decreases runs
  {
    runs == []
    || (end - 90 * 86400 < runs[0].input.now <= end && Possible(file, runs[0])
        && WithinOneCooldown(FileAfter(file, runs[0]), runs[1..], end))
  }

  // ----- one run -----

  /** Only a posted draft changes the time of an entry, and only posts that were tried are drafted. */
  lemma {:induction false} WalkTimes(tries: seq<Link>, reg: Register, fates: Fates, now: int, drafts: nat, code: Code, l: Link)
    ensures var o := Walk(tries, reg, fates, now, drafts, code);
            && (l in o.drafted ==> l in tries)
            && Of(o.reg, l).last == (if l in o.drafted && fates(l) == Posted then Some(now) else Of(reg, l).last)
  {
    if tries != [] {
      var link, fate := tries[0], fates(tries[0]);
      var reg' := reg[link := After(Of(reg, link), fate, now)];
      assert tries == [link] + tries[1..];
      if fate == NoFigure {
        WalkTimes(tries[1..], reg', fates, now, drafts, FigureMissing, l);
      } else if !(fate != Blocked || drafts + 1 >= DRAFTS_PER_RUN) {
        WalkTimes(tries[1..], reg', fates, now, drafts + 1, GateBlocked, l);
      }
    }
  }

  lemma CandidateIsDue(feed: seq<Link>, reg: Register, now: int, prio: Priority, l: Link)
    requires l in Candidates(feed, reg, now, prio)
    ensures Due(reg, now, l)
  {
    var due := (k: Link) => Due(reg, now, k);
    FilterAgree(feed, due, k => Due(reg, now, k));
    SortMember(Reversed(Filter(feed, due)), QueueOrder(reg, prio), l);
    ReversedPermutes(Filter(feed, due));
    assert l in multiset(Filter(feed, due));
    FilterMember(feed, due, l);
  }

  /** A run drafts what is due in the register it loaded, and notes the time of what it posted. */
  lemma RunTimes(file: Register, r: Scheduled, l: Link)
    ensures var o := Outcomes(file, r);
            && (l in o.drafted ==> Due(Loaded(file, r), r.input.now, l))
            && Of(o.reg, l).last == (if l in o.drafted && r.input.fates(l) == Posted then Some(r.input.now)
                                     else Of(Loaded(file, r), l).last)
  {
    hide Walk, Candidates, Due;
    var tries := Candidates(r.feed, Loaded(file, r), r.input.now, r.prio);
    WalkTimes(tries, Loaded(file, r), r.input.fates, r.input.now, 0, FigureMissing, l);
    if l in Outcomes(file, r).drafted {
      CandidateIsDue(r.feed, Loaded(file, r), r.input.now, r.prio, l);
    }
  }

  lemma {:induction false} WalkKeepsKeys(tries: seq<Link>, reg: Register, fates: Fates, now: int, drafts: nat, code: Code)
    ensures reg.Keys <= Walk(tries, reg, fates, now, drafts, code).reg.Keys
  {
    if tries != [] {
      var link, fate := tries[0], fates(tries[0]);
      var reg' := reg[link := After(Of(reg, link), fate, now)];
      if fate == NoFigure {
        WalkKeepsKeys(tries[1..], reg', fates, now, drafts, FigureMissing);
      } else if !(fate != Blocked || drafts + 1 >= DRAFTS_PER_RUN) {
        WalkKeepsKeys(tries[1..], reg', fates, now, drafts + 1, GateBlocked);
      }
    }
  }

  /** Without a write no entry changed. */
  lemma NothingWritten(file: Register, r: Scheduled, l: Link)
    requires !Writes(file, r)
    ensures Of(Outcomes(file, r).reg, l) == Of(Loaded(file, r), l)
  {
    var reg := Loaded(file, r);
    WalkKeepsKeys(Candidates(r.feed, reg, r.input.now, r.prio), reg, r.input.fates, r.input.now, 0, FigureMissing);
    hide Walk, Candidates;
  }

  /** One run: threads and records before it are those not recorded, those erased, and the record after it. */
  lemma RunIsCounted(file: Register, r: Scheduled, l: Link, end: int)
    requires end - COOLDOWN < r.input.now <= end && Possible(file, r)
    ensures One(Sends(file, r, l)) + One(PostedRecently(Of(file, l), end))
         == One(Sends(file, r, l) && !Records(r, l)) + One(Erases(file, r, l, end))
            + One(PostedRecently(Of(FileAfter(file, r), l), end))
  {
    RunTimes(file, r, l);
    if !Writes(file, r) {
      NothingWritten(file, r, l);
    }
    hide Outcomes, Writes;
  }

  // ----- all runs -----

  /**
   The exact count over any scheduled runs of one cooldown, whatever feed, gate, network and disk
   did: threads of a post equal those that were not recorded, plus the times its record was lost,
   plus one if it became closed.
   */
  lemma {:induction false} EvergreenThreadsAreCounted(file: Register, runs: seq<Scheduled>, l: Link, end: int)
    requires WithinOneCooldown(file, runs, end)
    ensures Threads(file, runs, l) + One(PostedRecently(Of(file, l), end))
         == Unrecorded(file, runs, l) + Erased(file, runs, l, end)
            + One(PostedRecently(Of(FileAfterAll(file, runs), l), end))
    decreases runs
  {
    if runs != [] {
      RunIsCounted(file, runs[0], l, end);
      hide FileAfter, PostedRecently, Sends, Records, Erases, Possible;
      EvergreenThreadsAreCounted(FileAfter(file, runs[0]), runs[1..], l, end);
    }
  }

  /**
   A post goes out at most once in a cooldown, and not at all if it went out shortly before,
   exactly if at most one of these stands at its end: a thread not recorded, a record lost, a record.
   */
  lemma OncePerCooldown(file: Register, runs: seq<Scheduled>, l: Link, end: int)
    requires WithinOneCooldown(file, runs, end)
    ensures Threads(file, runs, l) + One(PostedRecently(Of(file, l), end)) <= 1
       <==> Unrecorded(file, runs, l) + Erased(file, runs, l, end)
            + One(PostedRecently(Of(FileAfterAll(file, runs), l), end)) <= 1
    ensures Unrecorded(file, runs, l) == Erased(file, runs, l, end) == 0
       ==> Threads(file, runs, l) + One(PostedRecently(Of(file, l), end)) <= 1
  {
    EvergreenThreadsAreCounted(file, runs, l, end);
  }

  // ----- what sends a post again -----

  /** A run over one due post drafts it. */
  lemma LoneRun(a: Link, reg: Register, fates: Fates, now: int)
    requires Due(reg, now, a) && fates(a) !in {NoFigure, Blocked}
    ensures var o := ScheduledRun([a], map[], reg, fates, now);
            o.drafted == [a] && o.reg == reg[a := After(Of(reg, a), fates(a), now)]
  {
    var due: Link -> bool := l => Due(reg, now, l);
    assert Candidates([a], reg, now, map[]) == [a] by {
      FilterAll([a], due);
      FilterAgree([a], due, l => Due(reg, now, l));
      assert Reversed([a]) == [] + [a] == [a];
      SortTied([a], QueueOrder(reg, map[]));
    }
  }

  /** A readable register in which the post stands alone and due, and a thread that goes out. */
  predicate SendsAlone(r: Scheduled, a: Link, now: int) {
    r.feed == [a] && r.prio == map[] && now <= r.input.now && r.input.fates(a) in {Uncounted, Unmirrored, Posted}
  }

  /** A thread that is not recorded leaves its post due, so that it goes out in every run. */
  lemma {:induction false} GoesOutAgain(a: Link, now: int, file: Register, runs: seq<Scheduled>, end: int)
    requires Due(file, now, a) && WithinOneCooldown(file, runs, end)
    requires forall r :: r in runs ==> SendsAlone(r, a, now) && !Records(r, a)
    ensures Threads(file, runs, a) == |runs|
    decreases runs
  {
    if runs != [] {
      var r := runs[0];
      assert r in runs;
      assert Due(Loaded(file, r), r.input.now, a);
      LoneRun(a, Loaded(file, r), r.input.fates, r.input.now);
      assert Sends(file, r, a);
      assert Due(FileAfter(file, r), now, a) by {
        hide ScheduledRun;
      }
      hide Sends, FileAfter, Due, SendsAlone, Records;
      GoesOutAgain(a, now, FileAfter(file, r), runs[1..], end);
    }
  }

  /**
   Two threads of one post on one day although neither count was lost: the first is not recorded,
   because mirroring it raised an error or the register was not written, or the record is there
   and the second run cannot read it.
   */
  lemma SentTwice(a: Link, now: int)
    ensures var posted, unmirrored := RunInput(now, _ => Posted), RunInput(now, _ => Unmirrored);
            var good := Scheduled([a], map[], posted, true, Kept);
            && Threads(map[], [Scheduled([a], map[], unmirrored, true, Kept), good], a) == 2
            && Threads(map[], [good.(disk := Refused), good], a) == 2
            && Threads(map[], [good.(disk := Torn), good], a) == 2
            && Threads(map[], [good, good.(readable := false)], a) == 2
  {
    var posted, unmirrored := RunInput(now, _ => Posted), RunInput(now, _ => Unmirrored);
    var good := Scheduled([a], map[], posted, true, Kept);
    TwoRuns(Scheduled([a], map[], unmirrored, true, Kept), good, a, now);
    TwoRuns(good.(disk := Refused), good, a, now);
    TwoRuns(good.(disk := Torn), good, a, now);
    TwoRuns(good, good.(readable := false), a, now);
  }

  lemma TwoRuns(r: Scheduled, s: Scheduled, a: Link, now: int)
    requires SendsAlone(r, a, now) && SendsAlone(s, a, now) && r.input.now == now && s.input.now == now && !r.disk.Early?
    requires !Records(r, a) || !s.readable
    ensures Threads(map[], [r, s], a) == 2
  {
    LoneRun(a, map[], r.input.fates, now);
    var file := FileAfter(map[], r);
    assert Due(Loaded(file, s), now, a);
    LoneRun(a, Loaded(file, s), s.input.fates, now);
    assert [r, s][1..] == [s] && [s][1..] == [];
    hide ScheduledRun;
    assert Sends(map[], r, a) && Sends(file, s, a);
    assert Threads(file, [s], a) == 1 + Threads(FileAfter(file, s), [], a);
  }
}
