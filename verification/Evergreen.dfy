/**
 The evergreen queue of agents/syndicate.py: which archive posts are due, in
 which order they are tried, and how long a post can wait for its draft.
 */
module Evergreen {
  import opened Common
  import opened StableSort

  const MAX_BLOCKS := 3
  const DRAFTS_PER_RUN := 2
  const COOLDOWN := 90 * 86400  // seconds

  type Link = string

  /** One register entry. An absent entry reads as `NEVER`. */
  datatype Entry = Entry(last: Option<int>, blocks: nat, manual: bool, removed: bool)
  const NEVER := Entry(None, 0, false, false)
  type Register = map<Link, Entry>

  function Of(reg: Register, link: Link): Entry {
    if link in reg then reg[link] else NEVER
  }

  predicate PostedRecently(e: Entry, now: int) {
    e.last.Some? && now - e.last.value < COOLDOWN
  }

  predicate Due(reg: Register, now: int, link: Link) {
    !PostedRecently(Of(reg, link), now) && !Of(reg, link).removed
  }

  predicate Deferred(reg: Register, link: Link) {
    Of(reg, link).blocks >= MAX_BLOCKS
  }

  // ----- order of the queue -----

  /** Position in the priority file, by address without a trailing slash; every unnamed post shares the last rank. */
  type Priority = map<Link, nat>

  function Bare(link: Link): Link {
    if link != "" && link[|link| - 1] == '/' then Bare(link[..|link| - 1]) else link
  }

  function Rank(prio: Priority, link: Link): nat {
    if Bare(link) in prio then prio[Bare(link)] else |prio|
  }

  function RankOrder(prio: Priority): (Link, Link) -> bool {
    (x, y) => Rank(prio, x) < Rank(prio, y)
  }

  function QueueOrder(reg: Register, prio: Priority): (Link, Link) -> bool {
    (x, y) => (!Deferred(reg, x) && Deferred(reg, y))
           || (Deferred(reg, x) == Deferred(reg, y) && Rank(prio, x) < Rank(prio, y))
  }

  function Reversed(s: seq<Link>): (r: seq<Link>) {
    if s == [] then [] else Reversed(s[1..]) + [s[0]]
  }

  /** The feed is newest first, so reversing the due posts puts the oldest first. */
  function Candidates(feed: seq<Link>, reg: Register, now: int, prio: Priority): seq<Link> {
    Sort(Reversed(Filter(feed, l => Due(reg, now, l))), QueueOrder(reg, prio))
  }

  /** The order that does not depend on the register: rank, then oldest first. */
  function Standing(feed: seq<Link>, prio: Priority): seq<Link> {
    Sort(Reversed(feed), RankOrder(prio))
  }

  lemma {:induction false} FilterReversed(s: seq<Link>, keep: Link -> bool)
    ensures Filter(Reversed(s), keep) == Reversed(Filter(s, keep))
  {
    if s != [] {
      FilterReversed(s[1..], keep);
      FilterAppend(Reversed(s[1..]), [s[0]], keep);
      if keep(s[0]) {
        assert Filter(s, keep)[1..] == Filter(s[1..], keep);
      } else {
        assert Filter(s, keep) == Filter(s[1..], keep);
      }
    }
  }

  /** Among posts of the same kind the queue order is the rank order. */
  lemma {:induction false} InsertSameKind(x: Link, s: seq<Link>, reg: Register, prio: Priority)
    requires forall l :: l in s ==> Deferred(reg, l) == Deferred(reg, x)
    ensures Insert(x, s, QueueOrder(reg, prio)) == Insert(x, s, RankOrder(prio))
  {
    if s != [] {
      InsertSameKind(x, s[1..], reg, prio);
    }
  }

  lemma {:induction false} InsertOpen(x: Link, a: seq<Link>, b: seq<Link>, reg: Register, prio: Priority)
    requires !Deferred(reg, x)
    requires forall l :: l in b ==> Deferred(reg, l)
    ensures Insert(x, a + b, QueueOrder(reg, prio)) == Insert(x, a, QueueOrder(reg, prio)) + b
  {
    if a == [] {
      assert a + b == b;
    } else {
      assert (a + b)[1..] == a[1..] + b;
      InsertOpen(x, a[1..], b, reg, prio);
    }
  }

  lemma {:induction false} InsertHeld(x: Link, a: seq<Link>, b: seq<Link>, reg: Register, prio: Priority)
    requires Deferred(reg, x)
    requires forall l :: l in a ==> !Deferred(reg, l)
    ensures Insert(x, a + b, QueueOrder(reg, prio)) == a + Insert(x, b, QueueOrder(reg, prio))
  {
    if a == [] {
      assert a + b == b;
    } else {
      assert (a + b)[1..] == a[1..] + b;
      InsertHeld(x, a[1..], b, reg, prio);
    }
  }

  lemma InsertSplit(x: Link, a: seq<Link>, b: seq<Link>, reg: Register, prio: Priority)
    requires forall l :: l in a ==> !Deferred(reg, l)
    requires forall l :: l in b ==> Deferred(reg, l)
    ensures Insert(x, a + b, QueueOrder(reg, prio))
         == if Deferred(reg, x) then a + Insert(x, b, RankOrder(prio)) else Insert(x, a, RankOrder(prio)) + b
  {
    if Deferred(reg, x) {
      InsertHeld(x, a, b, reg, prio);
      InsertSameKind(x, b, reg, prio);
    } else {
      InsertOpen(x, a, b, reg, prio);
      InsertSameKind(x, a, reg, prio);
    }
  }

  lemma {:induction false} SortSplit(s: seq<Link>, reg: Register, prio: Priority)
    ensures Sort(s, QueueOrder(reg, prio))
         == Sort(Filter(s, l => !Deferred(reg, l)), RankOrder(prio))
          + Sort(Filter(s, l => Deferred(reg, l)), RankOrder(prio))
  {
    hide Rank, Deferred, Insert;
    var open, held := (l: Link) => !Deferred(reg, l), (l: Link) => Deferred(reg, l);
    assert Sort(s, QueueOrder(reg, prio)) == Sort(Filter(s, open), RankOrder(prio)) + Sort(Filter(s, held), RankOrder(prio)) by {
      if s != [] {
        var init, last := s[..|s| - 1], s[|s| - 1];
        assert s == init + [last];
        SortSplit(init, reg, prio);
        FilterAppend(init, [last], open);
        FilterAppend(init, [last], held);
        var a, b := Filter(init, open), Filter(init, held);
        FilterSortMembers(init, prio, open);
        FilterSortMembers(init, prio, held);
        InsertSplit(last, Sort(a, RankOrder(prio)), Sort(b, RankOrder(prio)), reg, prio);
        if open(last) {
          assert Filter(s, open) == a + [last] && (a + [last])[..|a|] == a && Filter(s, held) == b;
        } else {
          assert Filter(s, held) == b + [last] && (b + [last])[..|b|] == b && Filter(s, open) == a;
        }
      }
    }
  }

  lemma FilterSortMembers(s: seq<Link>, prio: Priority, keep: Link -> bool)
    ensures forall l :: l in Sort(Filter(s, keep), RankOrder(prio)) ==> keep(l)
  {
    forall l | l in Sort(Filter(s, keep), RankOrder(prio)) ensures keep(l) {
      SortMember(Filter(s, keep), RankOrder(prio), l);
      FilterMember(s, keep, l);
    }
  }

  /** The due posts in the standing order, the deferred ones moved behind the rest. */
  lemma CandidatesKeepStandingOrder(feed: seq<Link>, reg: Register, now: int, prio: Priority)
    ensures Candidates(feed, reg, now, prio)
         == Filter(Standing(feed, prio), l => Due(reg, now, l) && !Deferred(reg, l))
          + Filter(Standing(feed, prio), l => Due(reg, now, l) && Deferred(reg, l))
  {
    var due := (l: Link) => Due(reg, now, l);
    var open, held := (l: Link) => !Deferred(reg, l), (l: Link) => Deferred(reg, l);
    var order := RankOrder(prio);
    var d := Reversed(Filter(feed, due));
    FilterReversed(feed, due);
    FilterSort(Reversed(feed), order, due);
    FilterSort(d, order, open);
    FilterSort(d, order, held);
    SortSplit(d, reg, prio);
    FilterTwice(Standing(feed, prio), due, open, l => Due(reg, now, l) && !Deferred(reg, l));
    FilterTwice(Standing(feed, prio), due, held, l => Due(reg, now, l) && Deferred(reg, l));
    assert Filter(d, open) == Filter(d, l => !Deferred(reg, l)) by { FilterAgree(d, open, l => !Deferred(reg, l)); }
    assert Filter(d, held) == Filter(d, l => Deferred(reg, l)) by { FilterAgree(d, held, l => Deferred(reg, l)); }
    assert Candidates(feed, reg, now, prio) == Sort(d, QueueOrder(reg, prio)) by {
      FilterAgree(feed, due, l => Due(reg, now, l));
    }
  }

  // ----- one scheduled run -----

  /** How trying one post ends; the model, the gate and the network decide. */
  datatype Fate =
    | Unreadable  // the article text could not be fetched
    | NoFigure    // nothing to build a hook on; no draft is spent
    | NotDrafted  // the drafter returned nothing usable
    | Blocked     // the gate refused the draft
    | NotArmed    // passed the gate, handed over instead of posted
    | Halted      // passed the gate, a posting guard refused
    | NotSent     // passed the gate, the network refused
    | Uncounted   // the thread went out, counting it failed, and the error ends the run
    | Unmirrored  // the thread went out and was counted, and an error while mirroring it ends the run
    | Posted

  datatype Code = Done | Failed | GateBlocked | FigureMissing

  function CodeOf(f: Fate): Code {
    match f
    case NoFigure => FigureMissing
    case Blocked => GateBlocked
    case NotArmed | Posted => Done
    case _ => Failed
  }

  function After(e: Entry, f: Fate, now: int): Entry {
    match f
    case Unreadable => e
    case NoFigure => e.(manual := true)
    case NotDrafted => e.(manual := false)
    case Blocked => e.(manual := false, blocks := e.blocks + 1)
    case NotArmed | Halted | NotSent | Uncounted | Unmirrored => e.(manual := false, blocks := 0)
    case Posted => e.(manual := false, blocks := 0, last := Some(now))
  }

  type Fates = Link -> Fate

  datatype Outcome = Outcome(reg: Register, code: Code, drafted: seq<Link>)

  /** The walk over the posts to try: a post without a figure is free, a blocked one passes the turn on once. */
  function Walk(tries: seq<Link>, reg: Register, fates: Fates, now: int, drafts: nat, code: Code): Outcome {
    if tries == [] then Outcome(reg, code, [])
    else
      var link := tries[0];
      var fate := fates(link);
      var reg' := reg[link := After(Of(reg, link), fate, now)];
      if fate == NoFigure then Walk(tries[1..], reg', fates, now, drafts, FigureMissing)
      else if fate != Blocked || drafts + 1 >= DRAFTS_PER_RUN then Outcome(reg', CodeOf(fate), [link])
      else
        var rest := Walk(tries[1..], reg', fates, now, drafts + 1, GateBlocked);
        rest.(drafted := [link] + rest.drafted)
  }

  function ScheduledRun(feed: seq<Link>, prio: Priority, reg: Register, fates: Fates, now: int): Outcome {
    Walk(Candidates(feed, reg, now, prio), reg, fates, now, 0, FigureMissing)
  }

  /** The exit status the scheduler sees. */
  function Exit(code: Code): int {
    if code == Done || code == FigureMissing then 0 else 1
  }

  /** A whole run is what was drafted so far, followed by the rest of the walk. */
  ghost predicate Continues(whole: Outcome, drafted: seq<Link>, rest: Outcome) {
    whole.reg == rest.reg && whole.code == rest.code && whole.drafted == drafted + rest.drafted
  }

  /** One turn of the walk, at its place in the list of posts to try. */
  lemma WalkTurn(tries: seq<Link>, i: nat, reg: Register, fates: Fates, now: int, drafts: nat, code: Code)
    requires i < |tries|
    ensures var fate := fates(tries[i]);
            var reg' := reg[tries[i] := After(Of(reg, tries[i]), fate, now)];
            var whole := Walk(tries[i..], reg, fates, now, drafts, code);
            if fate == NoFigure then whole == Walk(tries[i + 1..], reg', fates, now, drafts, FigureMissing)
            else if fate != Blocked || drafts + 1 >= DRAFTS_PER_RUN then whole == Outcome(reg', CodeOf(fate), [tries[i]])
            else Continues(whole, [tries[i]], Walk(tries[i + 1..], reg', fates, now, drafts + 1, GateBlocked))
  {
    hide After, Of;
    assert tries[i..][1..] == tries[i + 1..];
  }

  lemma WalkEnd(reg: Register, fates: Fates, now: int, drafts: nat, code: Code)
    ensures Walk([], reg, fates, now, drafts, code) == Outcome(reg, code, [])
  {
  }

  class EvergreenQueue {
    var register: Register

    constructor (register: Register)
      ensures this.register == register
    {
      this.register := register;
    }

    method Run(feed: seq<Link>, prio: Priority, fates: Fates, now: int) returns (exit: int, drafted: seq<Link>)
      modifies this
      ensures Outcome(register, ScheduledRun(feed, prio, old(register), fates, now).code, drafted)
           == ScheduledRun(feed, prio, old(register), fates, now)
      ensures exit == Exit(ScheduledRun(feed, prio, old(register), fates, now).code)
    {
      hide Candidates, Of, After, Walk;
      ghost var whole := ScheduledRun(feed, prio, register, fates, now);
      var tries := Candidates(feed, register, now, prio);
      var drafts, code, i := 0, FigureMissing, 0;
      drafted := [];
      while i < |tries|
        invariant 0 <= i <= |tries|
        invariant 0 <= drafts < DRAFTS_PER_RUN
        invariant Continues(whole, drafted, Walk(tries[i..], register, fates, now, drafts, code))
      {
        var chosen := tries[i];
        var fate := fates(chosen);
        WalkTurn(tries, i, register, fates, now, drafts, code);
        register := register[chosen := After(Of(register, chosen), fate, now)];
        code := CodeOf(fate);
        i := i + 1;
        if fate == NoFigure {
          continue;
        }
        drafts := drafts + 1;
        drafted := drafted + [chosen];
        if code != GateBlocked || drafts >= DRAFTS_PER_RUN {
          break;
        }
      }
      WalkEnd(register, fates, now, drafts, code);
      assert i == |tries| ==> tries[i..] == [];
      exit := Exit(code);
    }
  }

  /** Equal up to the note that a post needs a hook by hand, which no rule of the queue reads. */
  predicate Alike(e: Entry, f: Entry) {
    e.last == f.last && e.blocks == f.blocks && e.removed == f.removed
  }

  /** The posts a walk drafts: the first with a figure, and after a block the second. */
  ghost function FirstDrafts(withFigure: seq<Link>, fates: Fates, drafts: nat): seq<Link> {
    if withFigure == [] then []
    else if drafts + 1 >= DRAFTS_PER_RUN || fates(withFigure[0]) != Blocked || |withFigure| == 1 then withFigure[..1]
    else withFigure[..2]
  }

  lemma {:induction false} WalkDraftList(tries: seq<Link>, reg: Register, fates: Fates, now: int, drafts: nat, code: Code)
    requires drafts < DRAFTS_PER_RUN
    ensures Walk(tries, reg, fates, now, drafts, code).drafted
         == FirstDrafts(Filter(tries, l => fates(l) != NoFigure), fates, drafts)
  {
    hide After, Of;
    if tries != [] {
      var link, fate := tries[0], fates(tries[0]);
      var reg' := reg[link := After(Of(reg, link), fate, now)];
      FilterUnfold(tries, fates);
      if fate == NoFigure {
        WalkDraftList(tries[1..], reg', fates, now, drafts, FigureMissing);
      } else if !(fate != Blocked || drafts + 1 >= DRAFTS_PER_RUN) {
        WalkDraftList(tries[1..], reg', fates, now, drafts + 1, GateBlocked);
      }
    }
  }

  lemma {:induction false} WalkEntries(tries: seq<Link>, reg: Register, fates: Fates, now: int, drafts: nat, code: Code)
    requires Distinct(tries) && drafts < DRAFTS_PER_RUN
    ensures var o := Walk(tries, reg, fates, now, drafts, code);
            && (forall l :: l in o.drafted ==> l in tries && Of(o.reg, l) == After(Of(reg, l), fates(l), now))
            && (forall l :: l !in o.drafted ==> Alike(Of(o.reg, l), Of(reg, l)))
            && (forall l :: l !in tries ==> Of(o.reg, l) == Of(reg, l))
  {
    if tries != [] {
      var link, fate := tries[0], fates(tries[0]);
      var reg' := reg[link := After(Of(reg, link), fate, now)];
      assert tries == [link] + tries[1..];
      if fate == NoFigure {
        WalkEntries(tries[1..], reg', fates, now, drafts, FigureMissing);
      } else if !(fate != Blocked || drafts + 1 >= DRAFTS_PER_RUN) {
        WalkEntries(tries[1..], reg', fates, now, drafts + 1, GateBlocked);
      }
    }
  }

  /** What a walk drafts and what it changes: exactly the drafted entries, each as its fate says. */
  lemma WalkDrafts(tries: seq<Link>, reg: Register, fates: Fates, now: int, drafts: nat, code: Code)
    requires Distinct(tries) && drafts < DRAFTS_PER_RUN
    ensures var o := Walk(tries, reg, fates, now, drafts, code);
            && o.drafted == FirstDrafts(Filter(tries, l => fates(l) != NoFigure), fates, drafts)
            && (forall l :: l in o.drafted ==> l in tries && Of(o.reg, l) == After(Of(reg, l), fates(l), now))
            && (forall l :: l !in o.drafted ==> Alike(Of(o.reg, l), Of(reg, l)))
  {
    hide Walk, FirstDrafts;
    WalkDraftList(tries, reg, fates, now, drafts, code);
    WalkEntries(tries, reg, fates, now, drafts, code);
  }

  lemma FilterUnfold(tries: seq<Link>, fates: Fates)
    requires tries != []
    ensures Filter(tries, l => fates(l) != NoFigure)
         == (if fates(tries[0]) != NoFigure then [tries[0]] else []) + Filter(tries[1..], l => fates(l) != NoFigure)
  {
    var has := (l: Link) => fates(l) != NoFigure;
    FilterAgree(tries, has, l => fates(l) != NoFigure);
    FilterAgree(tries[1..], has, l => fates(l) != NoFigure);
  }

  /**
   The last word of a walk. A run reports "no due post carries a figure" and exits 0
   although a draft was refused exactly when one post had a figure, it was blocked, and
   posts without a figure were still tried after it.
   */
  lemma {:induction false} WalkCode(tries: seq<Link>, reg: Register, fates: Fates, now: int, drafts: nat, code: Code)
    requires drafts < DRAFTS_PER_RUN
    ensures var withFigure := Filter(tries, l => fates(l) != NoFigure);
            Walk(tries, reg, fates, now, drafts, code).code == FigureMissing <==>
            (tries == [] && code == FigureMissing)
            || (tries != [] && fates(tries[|tries| - 1]) == NoFigure
                && (withFigure == []
                    || (drafts + 1 < DRAFTS_PER_RUN && |withFigure| == 1 && fates(withFigure[0]) == Blocked)))
  {
    if tries != [] {
      var link, fate := tries[0], fates(tries[0]);
      var reg' := reg[link := After(Of(reg, link), fate, now)];
      FilterUnfold(tries, fates);
      if fate == NoFigure {
        WalkCode(tries[1..], reg', fates, now, drafts, FigureMissing);
      } else if !(fate != Blocked || drafts + 1 >= DRAFTS_PER_RUN) {
        WalkCode(tries[1..], reg', fates, now, drafts + 1, GateBlocked);
      } else if fates(tries[|tries| - 1]) == NoFigure {
        assert |tries| > 1;
      }
    }
  }

  lemma {:induction false} ReversedPermutes(s: seq<Link>)
    ensures multiset(Reversed(s)) == multiset(s)
  {
    if s != [] {
      ReversedPermutes(s[1..]);
      assert s == [s[0]] + s[1..];
    }
  }

  lemma StandingOrder(feed: seq<Link>, prio: Priority)
    requires Distinct(feed)
    ensures Distinct(Standing(feed, prio))
    ensures forall l :: l in Standing(feed, prio) <==> l in feed
  {
    ReversedPermutes(feed);
    SortPermutes(Reversed(feed), RankOrder(prio));
    assert multiset(Standing(feed, prio)) == multiset(feed);
    DistinctPermutation(feed, Standing(feed, prio));
    forall l ensures l in Standing(feed, prio) <==> l in feed {
      assert l in multiset(Standing(feed, prio)) <==> l in multiset(feed);
    }
  }

  lemma CandidatesDistinct(feed: seq<Link>, reg: Register, now: int, prio: Priority)
    requires Distinct(feed)
    ensures Distinct(Candidates(feed, reg, now, prio))
  {
    var due := (l: Link) => Due(reg, now, l);
    FilterDistinct(feed, due);
    ReversedPermutes(Filter(feed, due));
    SortPermutes(Reversed(Filter(feed, due)), QueueOrder(reg, prio));
    DistinctPermutation(Filter(feed, due), Sort(Reversed(Filter(feed, due)), QueueOrder(reg, prio)));
    FilterAgree(feed, due, l => Due(reg, now, l));
  }

  /**
   A run that only had refused drafts still exits 0 exactly when one due post had a figure,
   its draft was blocked, and the walk ended on a post without a figure.
   */
  lemma BlockReportedAsOk(feed: seq<Link>, prio: Priority, reg: Register, fates: Fates, now: int)
    requires Distinct(feed)
    ensures var o := ScheduledRun(feed, prio, reg, fates, now);
            var tries := Candidates(feed, reg, now, prio);
            var withFigure := Filter(tries, l => fates(l) != NoFigure);
            Exit(o.code) == 0 && o.drafted != [] && (forall l :: l in o.drafted ==> fates(l) == Blocked)
            <==> |withFigure| == 1 && fates(withFigure[0]) == Blocked && fates(tries[|tries| - 1]) == NoFigure
  {
    var tries := Candidates(feed, reg, now, prio);
    var o := ScheduledRun(feed, prio, reg, fates, now);
    var withFigure := Filter(tries, l => fates(l) != NoFigure);
    CandidatesDistinct(feed, reg, now, prio);
    WalkDrafts(tries, reg, fates, now, 0, FigureMissing);
    WalkCode(tries, reg, fates, now, 0, FigureMissing);
    DoneWasPassed(tries, reg, fates, now, 0, FigureMissing);
    if withFigure != [] {
      assert withFigure[0] in withFigure[..1];
    }
  }

  /** One archive post whose draft is refused and one without a figure: the run exits 0. */
  lemma RefusedRunExitsOk(a: Link, b: Link, now: int)
    requires a != b
    ensures var fates: Fates := l => if l == a then Blocked else NoFigure;
            var o := ScheduledRun([b, a], map[], map[], fates, now);
            Exit(o.code) == 0 && o.drafted == [a]
  {
    var fates: Fates := l => if l == a then Blocked else NoFigure;
    var due: Link -> bool := l => Due(map[], now, l);
    var feed := [b, a];
    assert feed[1..] == [a] && [a][1..] == [];
    FilterAll(feed, due);
    assert Reversed([a]) == [] + [a] == [a];
    assert Reversed(feed) == [a] + [b] == [a, b];
    assert Candidates(feed, map[], now, map[]) == [a, b] by {
      FilterAgree(feed, due, l => Due(map[], now, l));
      SortTied([a, b], QueueOrder(map[], map[]));
    }
    hide Candidates;
    WalkRefused(a, b, fates, now);
  }

  lemma WalkRefused(a: Link, b: Link, fates: Fates, now: int)
    requires a != b && fates(a) == Blocked && fates(b) == NoFigure
    ensures var o := Walk([a, b], map[], fates, now, 0, FigureMissing); Exit(o.code) == 0 && o.drafted == [a]
  {
    var reg: Register := map[a := After(NEVER, Blocked, now)];
    hide Exit, After;
    assert [a, b][1..] == [b] && [b][1..] == [];
    var last := reg[b := After(NEVER, NoFigure, now)];
    assert Walk([], last, fates, now, 1, FigureMissing) == Outcome(last, FigureMissing, []);
    assert Walk([b], reg, fates, now, 1, GateBlocked) == Outcome(last, FigureMissing, []);
    assert Walk([a, b], map[], fates, now, 0, FigureMissing) == Outcome(last, FigureMissing, [a] + []);
    ExitOk();
  }

  lemma ExitOk()
    ensures Exit(FigureMissing) == 0
  {
  }

  lemma {:induction false} DoneWasPassed(tries: seq<Link>, reg: Register, fates: Fates, now: int, drafts: nat, code: Code)
    requires code != Done && drafts < DRAFTS_PER_RUN
    ensures var o := Walk(tries, reg, fates, now, drafts, code);
            o.code == Done ==> exists l :: l in o.drafted && fates(l) != Blocked
  {
    if tries != [] {
      var link, fate := tries[0], fates(tries[0]);
      var reg' := reg[link := After(Of(reg, link), fate, now)];
      if fate == NoFigure {
        DoneWasPassed(tries[1..], reg', fates, now, drafts, FigureMissing);
      } else if fate != Blocked || drafts + 1 >= DRAFTS_PER_RUN {
        assert link in [link];
      } else {
        DoneWasPassed(tries[1..], reg', fates, now, drafts + 1, GateBlocked);
        var rest := Walk(tries[1..], reg', fates, now, drafts + 1, GateBlocked);
        forall l | l in rest.drafted ensures l in [link] + rest.drafted {
        }
      }
    }
  }

  // ----- the order, the register and the exit status in plain terms -----

  /** Tried are the feed's posts that nobody removed and that went out 90 days ago or more, or never. */
  lemma WhoIsTried(feed: seq<Link>, reg: Register, now: int, prio: Priority, l: Link)
    ensures l in Candidates(feed, reg, now, prio) <==>
              l in feed && !Of(reg, l).removed && (Of(reg, l).last.Some? ==> now - Of(reg, l).last.value >= 90 * 86400)
    ensures Deferred(reg, l) <==> Of(reg, l).blocks >= 3
  {
    hide Of;
    var due := (k: Link) => Due(reg, now, k);
    FilterAgree(feed, due, k => Due(reg, now, k));
    SortMember(Reversed(Filter(feed, due)), QueueOrder(reg, prio), l);
    ReversedPermutes(Filter(feed, due));
    assert l in multiset(Reversed(Filter(feed, due))) <==> l in multiset(Filter(feed, due));
    FilterMember(feed, due, l);
  }

  lemma RankMeans(prio: Priority, link: Link)
    requires link != "" ==> link[|link| - 1] != '/'
    ensures Rank(prio, link) == Rank(prio, link + "/") == if link in prio then prio[link] else |prio|
  {
    assert (link + "/")[..|link + "/"| - 1] == link;
  }

  function Ranked(prio: Priority, k: nat): Link -> bool {
    l => Rank(prio, l) == k
  }

  /** Posts stand by rank, and those of one rank oldest first, for the feed is newest first. */
  lemma StandingMeans(feed: seq<Link>, prio: Priority, k: nat)
    ensures forall i, j :: 0 <= i < j < |Standing(feed, prio)| ==>
              Rank(prio, Standing(feed, prio)[i]) <= Rank(prio, Standing(feed, prio)[j])
    ensures Filter(Standing(feed, prio), Ranked(prio, k)) == Reversed(Filter(feed, Ranked(prio, k)))
  {
    hide Rank;
    var order, same := RankOrder(prio), Ranked(prio, k);
    SortOrdered(Reversed(feed), order);
    FilterSort(Reversed(feed), order, same);
    var selected := Filter(Reversed(feed), same);
    forall x | x in selected ensures same(x) {
      FilterMember(Reversed(feed), same, x);
    }
    SortTied(selected, order);
    FilterReversed(feed, same);
  }

  /** What a run leaves in the register for a post it drafted, and for any other. */
  lemma RegisterMeans(feed: seq<Link>, prio: Priority, reg: Register, fates: Fates, now: int, l: Link)
    requires Distinct(feed)
    ensures var o := ScheduledRun(feed, prio, reg, fates, now);
            var before, after, f := Of(reg, l), Of(o.reg, l), fates(l);
            && |o.drafted| <= 2
            && after.removed == before.removed
            && after.last == (if l in o.drafted && f == Posted then Some(now) else before.last)
            && after.blocks == (if l !in o.drafted || f == Unreadable || f == NotDrafted then before.blocks
                                else if f == Blocked then before.blocks + 1 else 0)
            && (l in o.drafted && f != Unreadable ==> !after.manual)
  {
    var tries := Candidates(feed, reg, now, prio);
    CandidatesDistinct(feed, reg, now, prio);
    WalkDrafts(tries, reg, fates, now, 0, FigureMissing);
    var has := (k: Link) => fates(k) != NoFigure;
    FilterAgree(tries, has, k => fates(k) != NoFigure);
    hide Candidates, Walk, Of, After;
    AfterMeans(Of(reg, l), fates(l), now);
    if l in ScheduledRun(feed, prio, reg, fates, now).drafted {
      FilterMember(tries, has, l);
    }
  }

  lemma AfterMeans(e: Entry, f: Fate, now: int)
    ensures var a := After(e, f, now);
            && a.removed == e.removed
            && a.last == (if f == Posted then Some(now) else e.last)
            && a.blocks == (if f in {Unreadable, NoFigure, NotDrafted} then e.blocks else if f == Blocked then e.blocks + 1 else 0)
            && a.manual == (if f == Unreadable then e.manual else f == NoFigure)
  {
  }

  lemma {:induction false} LastWord(tries: seq<Link>, reg: Register, fates: Fates, now: int, drafts: nat, code: Code)
    requires drafts < DRAFTS_PER_RUN
    ensures var o := Walk(tries, reg, fates, now, drafts, code);
            && (o.drafted == [] ==> o.code == if tries == [] then code else FigureMissing)
            && (o.drafted != [] ==> o.code in {FigureMissing, CodeOf(fates(o.drafted[|o.drafted| - 1]))})
  {
    hide After, Of, CodeOf;
    if tries != [] {
      var link, fate := tries[0], fates(tries[0]);
      var reg' := reg[link := After(Of(reg, link), fate, now)];
      if fate == NoFigure {
        LastWord(tries[1..], reg', fates, now, drafts, FigureMissing);
      } else if !(fate != Blocked || drafts + 1 >= DRAFTS_PER_RUN) {
        LastWord(tries[1..], reg', fates, now, drafts + 1, GateBlocked);
        BlockedCode();
      }
    }
  }

  lemma BlockedCode()
    ensures CodeOf(Blocked) == GateBlocked
  {
  }

  lemma CodeMeans(f: Fate)
    ensures CodeOf(f) == GateBlocked <==> f == Blocked
    ensures CodeOf(f) == FigureMissing <==> f == NoFigure
    ensures CodeOf(f) == Done <==> f == NotArmed || f == Posted
  {
  }

  /**
   The exit status: 0 if nothing was drafted, if the last draft was posted or handed over, or if the
   only draft was refused and a post without a figure was still tried after it; otherwise 1.
   */
  lemma ExitMeans(feed: seq<Link>, prio: Priority, reg: Register, fates: Fates, now: int)
    requires Distinct(feed)
    ensures var o := ScheduledRun(feed, prio, reg, fates, now);
            var tries := Candidates(feed, reg, now, prio);
            var withFigure := Filter(tries, l => fates(l) != NoFigure);
            && Exit(o.code) in {0, 1}
            && (Exit(o.code) == 0 <==>
                  || o.drafted == []
                  || fates(o.drafted[|o.drafted| - 1]) in {NotArmed, Posted}
                  || (|withFigure| == 1 && fates(withFigure[0]) == Blocked && fates(tries[|tries| - 1]) == NoFigure))
  {
    var tries := Candidates(feed, reg, now, prio);
    CandidatesDistinct(feed, reg, now, prio);
    WalkDrafts(tries, reg, fates, now, 0, FigureMissing);
    WalkCode(tries, reg, fates, now, 0, FigureMissing);
    LastWord(tries, reg, fates, now, 0, FigureMissing);
    hide Candidates, Walk, After, Of;
  }
}
