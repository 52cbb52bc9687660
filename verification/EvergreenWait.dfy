/**
 How long a due post can wait. A run that does not reach it takes one post out of the line
 ahead, or two refusals from the first two posts of the line. With p posts ahead the draft
 comes within 2p + 1 runs if p is even and 2p if it is odd, and for every p that can happen.
 */
module EvergreenWait {
  import opened Common
  import opened StableSort
  import opened Evergreen

  datatype RunInput = RunInput(now: int, fates: Fates)

  /** Ahead of the target: due, not deferred, and with a figure to draft on. */
  predicate InLine(reg: Register, now: int, figures: set<Link>, link: Link) {
    Due(reg, now, link) && !Deferred(reg, link) && link in figures
  }

  function Line(reg: Register, now: int, figures: set<Link>): Link -> bool {
    l => InLine(reg, now, figures, l)
  }

  /** Every cooldown that runs at `now` still runs at `end`. */
  ghost predicate Steady(reg: Register, now: int, end: int) {
    forall l :: PostedRecently(Of(reg, l), now) ==> PostedRecently(Of(reg, l), end)
  }

  /** Armed runs inside one cooldown, each draft ending blocked or posted. */
  ghost predicate Undisturbed(runs: seq<RunInput>, figures: set<Link>, end: int) {
    && (forall i :: 0 <= i < |runs| ==> end - 90 * 86400 < runs[i].now <= end)
    && (forall i, j :: 0 <= i < j < |runs| ==> runs[i].now <= runs[j].now)
    && (forall i, l :: 0 <= i < |runs| ==> runs[i].fates(l) in {NoFigure, Blocked, Posted})
    && (forall i, l :: 0 <= i < |runs| ==> (runs[i].fates(l) == NoFigure <==> l !in figures))
  }

  ghost predicate DraftedWithin(feed: seq<Link>, prio: Priority, reg: Register, runs: seq<RunInput>, x: Link, n: nat)
    decreases n
  {
    && n > 0 && runs != []
    && var o := ScheduledRun(feed, prio, reg, runs[0].fates, runs[0].now);
       (x in o.drafted || DraftedWithin(feed, prio, o.reg, runs[1..], x, n - 1))
  }

  /** The posts of one run that have a figure: first the line in standing order, then the deferred ones. */
  lemma DraftOrder(feed: seq<Link>, prio: Priority, reg: Register, run: RunInput, figures: set<Link>,
                   pre: seq<Link>, x: Link, post: seq<Link>) returns (rest: seq<Link>)
    requires Standing(feed, prio) == pre + [x] + post
    requires forall l :: run.fates(l) == NoFigure <==> l !in figures
    requires InLine(reg, run.now, figures, x)
    ensures Filter(Candidates(feed, reg, run.now, prio), l => run.fates(l) != NoFigure)
         == Filter(pre, Line(reg, run.now, figures)) + [x] + rest
  {
    hide Candidates, Standing, Due, Rank, Reversed;
    var all := Standing(feed, prio);
    var has := (l: Link) => run.fates(l) != NoFigure;
    var open := (l: Link) => Due(reg, run.now, l) && !Deferred(reg, l);
    var held := (l: Link) => Due(reg, run.now, l) && Deferred(reg, l);
    var line := Line(reg, run.now, figures);
    CandidatesKeepStandingOrder(feed, reg, run.now, prio);
    FilterAgree(all, open, l => Due(reg, run.now, l) && !Deferred(reg, l));
    FilterAgree(all, held, l => Due(reg, run.now, l) && Deferred(reg, l));
    FilterAppend(Filter(all, open), Filter(all, held), has);
    FilterTwice(all, open, has, line);
    FilterAppend(pre + [x], post, line);
    FilterAppend(pre, [x], line);
    var cs := Candidates(feed, reg, run.now, prio);
    FilterAgree(cs, has, l => run.fates(l) != NoFigure);
    rest := Filter(post, line) + Filter(Filter(all, held), has);
    assert Filter(cs, has) == Filter(pre, line) + [x] + rest;
  }

  /** One such run, with the next one at `next`. */
  ghost predicate QuietRun(run: RunInput, figures: set<Link>, next: int, end: int) {
    && end - COOLDOWN < run.now <= next <= end
    && (forall l :: run.fates(l) in {NoFigure, Blocked, Posted})
    && (forall l :: run.fates(l) == NoFigure <==> l !in figures)
  }

  /**
   What a run may do to one post: it keeps its place and its count unless drafted, a posted
   one leaves the line, a refused one loses a try and stays while it has one left.
   */
  predicate Treated(reg: Register, now: int, o: Outcome, next: int, end: int, figures: set<Link>, fate: Fate, l: Link) {
    && (PostedRecently(Of(o.reg, l), next) ==> PostedRecently(Of(o.reg, l), end))
    && (l !in o.drafted ==>
        InLine(o.reg, next, figures, l) == InLine(reg, now, figures, l) && Of(o.reg, l).blocks == Of(reg, l).blocks)
    && (l in o.drafted && fate == Posted ==> !InLine(o.reg, next, figures, l))
    && (l in o.drafted && fate == Blocked && InLine(reg, now, figures, l) ==>
        && Of(o.reg, l).blocks == Of(reg, l).blocks + 1
        && (InLine(o.reg, next, figures, l) <==> Of(reg, l).blocks + 1 < MAX_BLOCKS))
  }

  lemma RunEffect(feed: seq<Link>, prio: Priority, reg: Register, run: RunInput, next: int, end: int,
                  figures: set<Link>, l: Link)
    requires Distinct(feed) && QuietRun(run, figures, next, end) && Steady(reg, run.now, end)
    ensures Treated(reg, run.now, ScheduledRun(feed, prio, reg, run.fates, run.now), next, end, figures, run.fates(l), l)
  {
    var tries := Candidates(feed, reg, run.now, prio);
    var o := ScheduledRun(feed, prio, reg, run.fates, run.now);
    CandidatesDistinct(feed, reg, run.now, prio);
    WalkDrafts(tries, reg, run.fates, run.now, 0, FigureMissing);
    hide Candidates, Walk, Treated, After, Alike, Due;
    if l in o.drafted {
      DraftedIsDue(feed, prio, reg, run, l);
      assert Of(o.reg, l) == After(Of(reg, l), run.fates(l), run.now);
      TreatedAsDrafted(reg, run, o, next, end, figures, l);
    } else {
      assert Alike(Of(o.reg, l), Of(reg, l));
      TreatedAsLeft(reg, run, o, next, end, figures, l);
    }
  }

  lemma TreatedAsDrafted(reg: Register, run: RunInput, o: Outcome, next: int, end: int, figures: set<Link>, l: Link)
    requires QuietRun(run, figures, next, end) && l in o.drafted && Due(reg, run.now, l) && run.fates(l) != NoFigure
    requires Of(o.reg, l) == After(Of(reg, l), run.fates(l), run.now)
    ensures Treated(reg, run.now, o, next, end, figures, run.fates(l), l)
  {
  }

  lemma TreatedAsLeft(reg: Register, run: RunInput, o: Outcome, next: int, end: int, figures: set<Link>, l: Link)
    requires QuietRun(run, figures, next, end) && Steady(reg, run.now, end)
    requires l !in o.drafted && Alike(Of(o.reg, l), Of(reg, l))
    ensures Treated(reg, run.now, o, next, end, figures, run.fates(l), l)
  {
    assert PostedRecently(Of(reg, l), next) ==> PostedRecently(Of(reg, l), run.now);
  }

  /** The run drafts the first of the line, and if that is blocked the second; the target stands behind them. */
  lemma RunTakesFromLine(feed: seq<Link>, prio: Priority, reg: Register, run: RunInput, next: int, end: int,
                         figures: set<Link>, pre: seq<Link>, x: Link, post: seq<Link>)
    requires Distinct(feed) && Standing(feed, prio) == pre + [x] + post
    requires QuietRun(run, figures, next, end) && InLine(reg, run.now, figures, x)
    ensures var line := Filter(pre, Line(reg, run.now, figures)) + [x];
            var drafted := ScheduledRun(feed, prio, reg, run.fates, run.now).drafted;
            && Distinct(line) && line[0] in drafted
            && (run.fates(line[0]) == Posted ==> drafted == [line[0]])
            && (run.fates(line[0]) == Blocked && |line| > 1 ==> drafted == [line[0], line[1]])
  {
    var ahead := Filter(pre, Line(reg, run.now, figures));
    var rest := DraftOrder(feed, prio, reg, run, figures, pre, x, post);
    var queue := ahead + [x] + rest;
    CandidatesDistinct(feed, reg, run.now, prio);
    WalkDrafts(Candidates(feed, reg, run.now, prio), reg, run.fates, run.now, 0, FigureMissing);
    assert ScheduledRun(feed, prio, reg, run.fates, run.now).drafted == FirstDrafts(queue, run.fates, 0);
    AheadDistinct(feed, prio, pre, x, post, Line(reg, run.now, figures));
    assert queue[0] in queue[..1] && run.fates(queue[0]) in {Blocked, Posted} by {
      FirstInLine(pre, x, reg, run, figures);
    }
  }

  lemma FirstInLine(pre: seq<Link>, x: Link, reg: Register, run: RunInput, figures: set<Link>)
    requires InLine(reg, run.now, figures, x)
    requires forall l :: run.fates(l) in {NoFigure, Blocked, Posted}
    requires forall l :: run.fates(l) == NoFigure <==> l !in figures
    ensures run.fates((Filter(pre, Line(reg, run.now, figures)) + [x])[0]) in {Blocked, Posted}
  {
    var ahead := Filter(pre, Line(reg, run.now, figures));
    if ahead != [] {
      FilterMember(pre, Line(reg, run.now, figures), ahead[0]);
    }
  }

  lemma AheadDistinct(feed: seq<Link>, prio: Priority, pre: seq<Link>, x: Link, post: seq<Link>, keep: Link -> bool)
    requires Distinct(feed) && Standing(feed, prio) == pre + [x] + post
    ensures Distinct(Filter(pre, keep) + [x]) && Distinct(pre) && x !in pre
  {
    StandingOrder(feed, prio);
    var all := Standing(feed, prio);
    forall i, j | 0 <= i < j < |pre| ensures pre[i] != pre[j] {
      assert all[i] != all[j];
    }
    forall i | 0 <= i < |pre| ensures pre[i] != x {
      assert all[i] != all[|pre|];
    }
    FilterDistinct(pre, keep);
    FilterMember(pre, keep, x);
  }

  // ----- the line after a run -----

  /** How many posts a run takes from the line that does not reach its target. */
  function Taken(fates: Fates, ahead: seq<Link>): nat
    requires ahead != []
  {
    if fates(ahead[0]) == Posted then 1 else 2
  }

  /** A run that misses its target drafts only posts ahead of it. */
  lemma DraftsAhead(feed: seq<Link>, prio: Priority, reg: Register, run: RunInput, next: int, end: int,
                    figures: set<Link>, pre: seq<Link>, x: Link, post: seq<Link>)
    requires Distinct(feed) && Standing(feed, prio) == pre + [x] + post
    requires QuietRun(run, figures, next, end) && InLine(reg, run.now, figures, x)
    requires x !in ScheduledRun(feed, prio, reg, run.fates, run.now).drafted
    ensures var ahead := Filter(pre, Line(reg, run.now, figures));
            && Distinct(ahead) && ahead != [] && Taken(run.fates, ahead) <= |ahead|
            && ScheduledRun(feed, prio, reg, run.fates, run.now).drafted == ahead[..Taken(run.fates, ahead)]
            && forall l :: l in ahead ==> InLine(reg, run.now, figures, l) && run.fates(l) in {Blocked, Posted}
  {
    RunTakesFromLine(feed, prio, reg, run, next, end, figures, pre, x, post);
    FirstInLine(pre, x, reg, run, figures);
    var keep := Line(reg, run.now, figures);
    var ahead := Filter(pre, keep);
    forall l | l in ahead ensures InLine(reg, run.now, figures, l) && run.fates(l) in {Blocked, Posted} {
      FilterMember(pre, keep, l);
    }
    hide ScheduledRun, Filter, InLine;
    var drafted := ScheduledRun(feed, prio, reg, run.fates, run.now).drafted;
    var line := ahead + [x];
    assert ahead != [] ==> line[0] == ahead[0];
    assert |ahead| == 1 ==> line[1] == x;
    assert |ahead| > 1 ==> line[1] == ahead[1] && ahead[..2] == [ahead[0], ahead[1]];
    assert ahead != [] ==> ahead[..1] == [ahead[0]];
    forall i, j | 0 <= i < j < |ahead| ensures ahead[i] != ahead[j] {
      assert line[i] != line[j];
    }
  }

  /** A line from whose rear nothing leaves, and which nothing joins. */
  lemma RearStays(pre: seq<Link>, line: Link -> bool, line': Link -> bool, k: nat)
    requires k <= |Filter(pre, line)|
    requires forall l :: l in pre && line'(l) ==> line(l)
    requires forall l :: l in Filter(pre, line)[k..] ==> line'(l)
    ensures Filter(pre, line') == Filter(Filter(pre, line)[..k], line') + Filter(pre, line)[k..]
  {
    var ahead := Filter(pre, line);
    FilterTwice(pre, line, line', line');
    assert ahead == ahead[..k] + ahead[k..];
    FilterAppend(ahead[..k], ahead[k..], line');
    FilterAll(ahead[k..], line');
  }

  /** A line whose first k posts were drafted: only they can leave it. */
  lemma OnlyDraftedLeave(reg: Register, now: int, o: Outcome, next: int, end: int, figures: set<Link>, fates: Fates,
                         pre: seq<Link>, k: nat)
    requires forall l :: Treated(reg, now, o, next, end, figures, fates(l), l)
    requires Distinct(Filter(pre, Line(reg, now, figures))) && k <= |Filter(pre, Line(reg, now, figures))|
    requires o.drafted == Filter(pre, Line(reg, now, figures))[..k]
    ensures var ahead, after := Filter(pre, Line(reg, now, figures)), Line(o.reg, next, figures);
            && Filter(pre, after) == Filter(ahead[..k], after) + ahead[k..]
            && forall i :: k <= i < |ahead| ==> Of(o.reg, ahead[i]).blocks == Of(reg, ahead[i]).blocks
  {
    hide InLine, PostedRecently;
    var line, line' := Line(reg, now, figures), Line(o.reg, next, figures);
    var ahead := Filter(pre, line);
    forall l | l in pre && line'(l) ensures line(l) {
      FilterMember(pre, line, l);
      hide Filter;
      assert Treated(reg, now, o, next, end, figures, fates(l), l);
    }
    forall i | k <= i < |ahead|
      ensures Of(o.reg, ahead[i]).blocks == Of(reg, ahead[i]).blocks && line'(ahead[i])
    {
      FilterMember(pre, line, ahead[i]);
      hide Filter;
      assert ahead[i] !in o.drafted;
      assert Treated(reg, now, o, next, end, figures, fates(ahead[i]), ahead[i]);
    }
    RearStays(pre, line, line', k);
  }

  /** After a run that does not draft the target only its one or two drafted posts can have left the line. */
  lemma LineAfter(feed: seq<Link>, prio: Priority, reg: Register, run: RunInput, next: int, end: int,
                  figures: set<Link>, pre: seq<Link>, x: Link, post: seq<Link>)
    requires Distinct(feed) && Standing(feed, prio) == pre + [x] + post
    requires QuietRun(run, figures, next, end) && Steady(reg, run.now, end) && InLine(reg, run.now, figures, x)
    requires x !in ScheduledRun(feed, prio, reg, run.fates, run.now).drafted
    ensures var o := ScheduledRun(feed, prio, reg, run.fates, run.now);
            var ahead, after := Filter(pre, Line(reg, run.now, figures)), Line(o.reg, next, figures);
            && ahead != [] && Taken(run.fates, ahead) <= |ahead|
            && Steady(o.reg, next, end) && InLine(o.reg, next, figures, x)
            && Filter(pre, after) == Filter(ahead[..Taken(run.fates, ahead)], after) + ahead[Taken(run.fates, ahead)..]
            && forall i :: Taken(run.fates, ahead) <= i < |ahead| ==> Of(o.reg, ahead[i]).blocks == Of(reg, ahead[i]).blocks
  {
    DraftsAhead(feed, prio, reg, run, next, end, figures, pre, x, post);
    hide ScheduledRun, InLine, QuietRun, PostedRecently, Filter, Taken;
    var o := ScheduledRun(feed, prio, reg, run.fates, run.now);
    var ahead := Filter(pre, Line(reg, run.now, figures));
    forall l ensures Treated(reg, run.now, o, next, end, figures, run.fates(l), l) {
      RunEffect(feed, prio, reg, run, next, end, figures, l);
    }
    assert Treated(reg, run.now, o, next, end, figures, run.fates(x), x);
    assert Steady(o.reg, next, end) by {
      forall l ensures PostedRecently(Of(o.reg, l), next) ==> PostedRecently(Of(o.reg, l), end) {
        assert Treated(reg, run.now, o, next, end, figures, run.fates(l), l);
      }
    }
    OnlyDraftedLeave(reg, run.now, o, next, end, figures, run.fates, pre, Taken(run.fates, ahead));
  }

  // ----- how many runs a line can last -----

  /** The refusals a post can still take and stay in line. */
  function Spare(reg: Register, l: Link): int {
    MAX_BLOCKS - 1 - Of(reg, l).blocks
  }

  function Min(a: int, b: int): int {
    if a < b then a else b
  }

  function Max(a: int, b: int): int {
    if a < b then b else a
  }

  /**
   How many runs a line can keep its target waiting. A run takes one post out of it, or two
   refusals from its first two posts; what the last odd post could take is of no use.
   */
  function Lasts(reg: Register, line: seq<Link>): int {
    var p := |line|;
    if p < 2 then p
    else if p % 2 == 0 then 2 * p - 2 + Min(Spare(reg, line[0]), Spare(reg, line[1]))
    else 2 * p - 3 + Max(Spare(reg, line[1]), Spare(reg, line[0]) - 1)
  }

  function Worst(p: nat): nat {
    if p % 2 == 0 then 2 * p else 2 * p - 1
  }

  lemma LastsAtMost(reg: Register, line: seq<Link>)
    ensures Lasts(reg, line) <= Worst(|line|)
  {
  }

  /** The target keeps its place, and the line can keep it waiting for one run less. */
  lemma RunShortens(feed: seq<Link>, prio: Priority, reg: Register, run: RunInput, next: int, end: int,
                    figures: set<Link>, pre: seq<Link>, x: Link, post: seq<Link>)
    requires Distinct(feed) && Standing(feed, prio) == pre + [x] + post
    requires QuietRun(run, figures, next, end) && Steady(reg, run.now, end) && InLine(reg, run.now, figures, x)
    requires x !in ScheduledRun(feed, prio, reg, run.fates, run.now).drafted
    ensures var o := ScheduledRun(feed, prio, reg, run.fates, run.now);
            && Steady(o.reg, next, end) && InLine(o.reg, next, figures, x)
            && Lasts(o.reg, Filter(pre, Line(o.reg, next, figures))) + 1 <= Lasts(reg, Filter(pre, Line(reg, run.now, figures)))
  {
    var o := ScheduledRun(feed, prio, reg, run.fates, run.now);
    var ahead := Filter(pre, Line(reg, run.now, figures));
    DraftsAhead(feed, prio, reg, run, next, end, figures, pre, x, post);
    LineAfter(feed, prio, reg, run, next, end, figures, pre, x, post);
    hide ScheduledRun, Filter, QuietRun, PostedRecently, Steady, Due, Lasts, Distinct, Standing;
    var k := Taken(run.fates, ahead);
    var after := Line(o.reg, next, figures);
    forall i | 0 <= i < k ensures Treated(reg, run.now, o, next, end, figures, run.fates(ahead[i]), ahead[i]) && ahead[i] in o.drafted {
      RunEffect(feed, prio, reg, run, next, end, figures, ahead[i]);
    }
    forall l | l in ahead ensures 0 <= Spare(reg, l) < MAX_BLOCKS {
    }
    if k == 1 {
      FilterOne(ahead[0], after);
      assert ahead[..1] == [ahead[0]];
      assert [] + ahead[1..] == ahead[1..];
      OneLeaves(reg, o.reg, ahead);
    } else {
      var first, second := after(ahead[0]), after(ahead[1]);
      FilterTwo(ahead[0], ahead[1], after);
      assert ahead[..2] == [ahead[0], ahead[1]];
      assert ahead[1] in ahead;
      TwoAreRefused(reg, o.reg, ahead, first, second);
    }
  }

  lemma FilterOne(a: Link, keep: Link -> bool)
    ensures Filter([a], keep) == if keep(a) then [a] else []
  {
    assert [a][1..] == [];
  }

  lemma FilterTwo(a: Link, b: Link, keep: Link -> bool)
    ensures Filter([a, b], keep) == (if keep(a) then [a] else []) + (if keep(b) then [b] else [])
  {
    assert [a, b][1..] == [b];
    FilterOne(b, keep);
  }

  lemma OneLeaves(reg: Register, reg': Register, line: seq<Link>)
    requires line != [] && forall l :: l in line ==> 0 <= Spare(reg, l) < MAX_BLOCKS
    requires forall i :: 1 <= i < |line| ==> Spare(reg', line[i]) == Spare(reg, line[i])
    ensures Lasts(reg', line[1..]) + 1 <= Lasts(reg, line)
  {
    if |line| > 2 {
      assert line[0] in line && line[1] in line && line[2] in line;
    } else if |line| == 2 {
      assert line[0] in line && line[1] in line;
    }
  }

  /** The first post was refused and stays or leaves; the second was refused and stays, or leaves. */
  lemma TwoAreRefused(reg: Register, reg': Register, line: seq<Link>, first: bool, second: bool)
    requires |line| > 1 && forall l :: l in line ==> 0 <= Spare(reg, l) < MAX_BLOCKS
    requires forall i :: 2 <= i < |line| ==> Spare(reg', line[i]) == Spare(reg, line[i])
    requires first <==> Spare(reg, line[0]) > 0
    requires first ==> Spare(reg', line[0]) == Spare(reg, line[0]) - 1
    requires second ==> Spare(reg', line[1]) == Spare(reg, line[1]) - 1 >= 0
    ensures Lasts(reg', (if first then [line[0]] else []) + (if second then [line[1]] else []) + line[2..]) + 1 <= Lasts(reg, line)
  {
    assert line[0] in line && line[1] in line;
    if |line| > 2 {
      assert line[2] in line;
    }
    if |line| > 3 {
      assert line[3] in line;
    }
  }

  lemma DraftedIsDue(feed: seq<Link>, prio: Priority, reg: Register, run: RunInput, l: Link)
    requires Distinct(feed)
    requires l in ScheduledRun(feed, prio, reg, run.fates, run.now).drafted
    ensures Due(reg, run.now, l) && run.fates(l) != NoFigure
  {
    var tries := Candidates(feed, reg, run.now, prio);
    var has := (k: Link) => run.fates(k) != NoFigure;
    CandidatesDistinct(feed, reg, run.now, prio);
    WalkDrafts(tries, reg, run.fates, run.now, 0, FigureMissing);
    FilterAgree(tries, has, k => run.fates(k) != NoFigure);
    FilterMember(tries, has, l);
    var due := (k: Link) => Due(reg, run.now, k);
    ReversedPermutes(Filter(feed, due));
    FilterAgree(feed, due, k => Due(reg, run.now, k));
    SortMember(Reversed(Filter(feed, due)), QueueOrder(reg, prio), l);
    assert l in multiset(Filter(feed, due));
    FilterMember(feed, due, l);
  }

  lemma {:induction false} LineBoundsWait(feed: seq<Link>, prio: Priority, reg: Register, runs: seq<RunInput>,
                                          figures: set<Link>, end: int,
                                          pre: seq<Link>, x: Link, post: seq<Link>, m: nat)
    requires Distinct(feed) && Standing(feed, prio) == pre + [x] + post
    requires Undisturbed(runs, figures, end) && |runs| >= m + 1
    requires Steady(reg, runs[0].now, end) && InLine(reg, runs[0].now, figures, x)
    requires Lasts(reg, Filter(pre, Line(reg, runs[0].now, figures))) <= m
    ensures DraftedWithin(feed, prio, reg, runs, x, m + 1)
    decreases m
  {
    var run := runs[0];
    var o := ScheduledRun(feed, prio, reg, run.fates, run.now);
    if x !in o.drafted {
      var next := if |runs| > 1 then runs[1].now else end;
      assert QuietRun(run, figures, next, end);
      RunShortens(feed, prio, reg, run, next, end, figures, pre, x, post);
      LastsSomething(o.reg, pre, next, figures);
      assert m > 0;
      UndisturbedTail(runs, figures, end);
      LineBoundsWait(feed, prio, o.reg, runs[1..], figures, end, pre, x, post, m - 1);
    }
  }

  lemma LastsSomething(reg: Register, pre: seq<Link>, now: int, figures: set<Link>)
    ensures Lasts(reg, Filter(pre, Line(reg, now, figures))) >= 0
  {
    var line := Filter(pre, Line(reg, now, figures));
    if |line| > 1 {
      FilterMember(pre, Line(reg, now, figures), line[0]);
      FilterMember(pre, Line(reg, now, figures), line[1]);
    }
  }

  lemma UndisturbedTail(runs: seq<RunInput>, figures: set<Link>, end: int)
    requires runs != [] && Undisturbed(runs, figures, end)
    ensures Undisturbed(runs[1..], figures, end)
  {
    var tail := runs[1..];
    forall i | 0 <= i < |tail| ensures tail[i] == runs[i + 1] {
    }
  }

  /**
   The bounded wait. The feed is fixed, the runs lie inside one cooldown in which no older
   cooldown ends, every draft is blocked or posted. With p posts of its kind ahead, a due post
   that is not deferred and has a figure is drafted within 2p + 1 runs if p is even, 2p if odd.
   */
  lemma BoundedWait(feed: seq<Link>, prio: Priority, reg: Register, runs: seq<RunInput>,
                    figures: set<Link>, end: int, pre: seq<Link>, x: Link, post: seq<Link>)
    requires Distinct(feed) && Standing(feed, prio) == pre + [x] + post
    requires runs != [] && Undisturbed(runs, figures, end) && Steady(reg, runs[0].now, end)
    requires InLine(reg, runs[0].now, figures, x)
    requires |runs| >= Worst(|Filter(pre, Line(reg, runs[0].now, figures))|) + 1
    ensures DraftedWithin(feed, prio, reg, runs, x, Worst(|Filter(pre, Line(reg, runs[0].now, figures))|) + 1)
  {
    var line := Filter(pre, Line(reg, runs[0].now, figures));
    LastsAtMost(reg, line);
    LineBoundsWait(feed, prio, reg, runs, figures, end, pre, x, post, Worst(|line|));
  }

  // ----- the bound is met -----

  function Refuse(figures: set<Link>, now: int): RunInput {
    RunInput(now, l => if l in figures then Blocked else NoFigure)
  }

  function Publish(figures: set<Link>, now: int): RunInput {
    RunInput(now, l => if l in figures then Posted else NoFigure)
  }

  ghost predicate Refused(reg: Register, line: seq<Link>, n: nat) {
    forall l :: l in line ==> Of(reg, l).blocks == n
  }

  /** The first two posts of the line are refused; nothing else changes. */
  lemma RefuseTwo(feed: seq<Link>, prio: Priority, reg: Register, now: int, figures: set<Link>,
                  pre: seq<Link>, x: Link, post: seq<Link>, n: nat)
    requires Distinct(feed) && Standing(feed, prio) == pre + [x] + post
    requires Steady(reg, now, now) && InLine(reg, now, figures, x)
    requires var ahead := Filter(pre, Line(reg, now, figures));
             |ahead| > 1 && n + 1 < MAX_BLOCKS && Refused(reg, ahead[..2], n) && Refused(reg, ahead[2..], 0)
    ensures var run := Refuse(figures, now);
            var o := ScheduledRun(feed, prio, reg, run.fates, run.now);
            var ahead := Filter(pre, Line(reg, now, figures));
            && x !in o.drafted && Steady(o.reg, now, now) && InLine(o.reg, now, figures, x)
            && Filter(pre, Line(o.reg, now, figures)) == ahead
            && Refused(o.reg, ahead[..2], n + 1) && Refused(o.reg, ahead[2..], 0)
  {
    var run := Refuse(figures, now);
    var o := ScheduledRun(feed, prio, reg, run.fates, run.now);
    var ahead := Filter(pre, Line(reg, now, figures));
    var after := Line(o.reg, now, figures);
    AllHaveFigures(reg, now, figures, pre);
    TargetIsBehind(feed, prio, reg, run, now, figures, pre, x, post);
    DraftsAhead(feed, prio, reg, run, now, now, figures, pre, x, post);
    LineAfter(feed, prio, reg, run, now, now, figures, pre, x, post);
    hide ScheduledRun, Filter, PostedRecently, Steady, Due;
    assert ahead[0] in ahead && ahead[0] in figures;
    assert Taken(run.fates, ahead) == 2;
    forall i | 0 <= i < 2 ensures Of(o.reg, ahead[i]).blocks == n + 1 && after(ahead[i]) {
      assert ahead[i] in ahead && ahead[i] in ahead[..2];
      RunEffect(feed, prio, reg, run, now, now, figures, ahead[i]);
      assert ahead[i] in o.drafted;
    }
    FilterAll(ahead[..2], after);
    assert ahead[..2] + ahead[2..] == ahead;
  }

  lemma AllHaveFigures(reg: Register, now: int, figures: set<Link>, pre: seq<Link>)
    ensures forall l :: l in Filter(pre, Line(reg, now, figures)) ==> l in figures && InLine(reg, now, figures, l)
  {
    forall l | l in Filter(pre, Line(reg, now, figures)) ensures l in figures && InLine(reg, now, figures, l) {
      FilterMember(pre, Line(reg, now, figures), l);
    }
  }

  /** A run that publishes, or refuses with two posts ahead, does not come to the target. */
  lemma TargetIsBehind(feed: seq<Link>, prio: Priority, reg: Register, run: RunInput, now: int, figures: set<Link>,
                       pre: seq<Link>, x: Link, post: seq<Link>)
    requires Distinct(feed) && Standing(feed, prio) == pre + [x] + post && InLine(reg, now, figures, x)
    requires var ahead := Filter(pre, Line(reg, now, figures));
             (run == Publish(figures, now) && ahead != []) || (run == Refuse(figures, now) && |ahead| > 1)
    ensures QuietRun(run, figures, now, now) && x !in ScheduledRun(feed, prio, reg, run.fates, run.now).drafted
  {
    var ahead := Filter(pre, Line(reg, now, figures));
    AllHaveFigures(reg, now, figures, pre);
    assert QuietRun(run, figures, now, now);
    RunTakesFromLine(feed, prio, reg, run, now, now, figures, pre, x, post);
    hide ScheduledRun, Filter, InLine;
    var line := ahead + [x];
    assert line[0] == ahead[0] && ahead[0] in ahead && line[|ahead|] == x;
    if |ahead| > 1 {
      assert line[1] == ahead[1];
    }
  }

  /** The first post of the line goes out; nothing else changes. */
  lemma PublishOne(feed: seq<Link>, prio: Priority, reg: Register, now: int, figures: set<Link>,
                   pre: seq<Link>, x: Link, post: seq<Link>)
    requires Distinct(feed) && Standing(feed, prio) == pre + [x] + post
    requires Steady(reg, now, now) && InLine(reg, now, figures, x)
    requires Filter(pre, Line(reg, now, figures)) != []
    ensures var run := Publish(figures, now);
            var o := ScheduledRun(feed, prio, reg, run.fates, run.now);
            var ahead := Filter(pre, Line(reg, now, figures));
            && x !in o.drafted && Steady(o.reg, now, now) && InLine(o.reg, now, figures, x)
            && Filter(pre, Line(o.reg, now, figures)) == ahead[1..]
            && forall l :: l in ahead[1..] ==> Of(o.reg, l).blocks == Of(reg, l).blocks
  {
    var run := Publish(figures, now);
    var o := ScheduledRun(feed, prio, reg, run.fates, run.now);
    var ahead := Filter(pre, Line(reg, now, figures));
    var after := Line(o.reg, now, figures);
    AllHaveFigures(reg, now, figures, pre);
    TargetIsBehind(feed, prio, reg, run, now, figures, pre, x, post);
    DraftsAhead(feed, prio, reg, run, now, now, figures, pre, x, post);
    LineAfter(feed, prio, reg, run, now, now, figures, pre, x, post);
    hide ScheduledRun, Filter, PostedRecently, Steady, Due;
    assert ahead[0] in ahead && ahead[0] in figures;
    assert Taken(run.fates, ahead) == 1;
    RunEffect(feed, prio, reg, run, now, now, figures, ahead[0]);
    assert ahead[0] in o.drafted;
    assert ahead[..1] == [ahead[0]];
    FilterOne(ahead[0], after);
    assert [] + ahead[1..] == ahead[1..];
  }

  function RegAfter(feed: seq<Link>, prio: Priority, reg: Register, run: RunInput): Register {
    ScheduledRun(feed, prio, reg, run.fates, run.now).reg
  }

  /** A schedule at one moment in which no run drafts the target. */
  ghost predicate KeepsWaiting(feed: seq<Link>, prio: Priority, reg: Register, runs: seq<RunInput>, now: int,
                               figures: set<Link>, x: Link, n: nat) {
    && |runs| == n && !DraftedWithin(feed, prio, reg, runs, x, n)
    && forall i :: 0 <= i < |runs| ==> runs[i] == Refuse(figures, now) || runs[i] == Publish(figures, now)
  }

  lemma NotYet(feed: seq<Link>, prio: Priority, reg: Register, run: RunInput, rest: seq<RunInput>, now: int,
               figures: set<Link>, x: Link, n: nat)
    requires run == Refuse(figures, now) || run == Publish(figures, now)
    requires x !in ScheduledRun(feed, prio, reg, run.fates, run.now).drafted
    requires KeepsWaiting(feed, prio, RegAfter(feed, prio, reg, run), rest, now, figures, x, n)
    ensures KeepsWaiting(feed, prio, reg, [run] + rest, now, figures, x, n + 1)
  {
    hide ScheduledRun;
    assert ([run] + rest)[1..] == rest;
  }

  /** Both posts of the first pair are refused twice, the target keeps waiting, and the line is as it was. */
  lemma RefusePair(feed: seq<Link>, prio: Priority, reg: Register, now: int, figures: set<Link>,
                   pre: seq<Link>, x: Link, post: seq<Link>) returns (r1: Register, r2: Register)
    requires Distinct(feed) && Standing(feed, prio) == pre + [x] + post
    requires Steady(reg, now, now) && InLine(reg, now, figures, x)
    requires Refused(reg, Filter(pre, Line(reg, now, figures)), 0) && |Filter(pre, Line(reg, now, figures))| > 1
    ensures var refuse := Refuse(figures, now);
            && r1 == RegAfter(feed, prio, reg, refuse) && r2 == RegAfter(feed, prio, r1, refuse)
            && x !in ScheduledRun(feed, prio, reg, refuse.fates, now).drafted
            && x !in ScheduledRun(feed, prio, r1, refuse.fates, now).drafted
    ensures Steady(r2, now, now) && InLine(r2, now, figures, x)
    ensures Filter(pre, Line(r2, now, figures)) == Filter(pre, Line(reg, now, figures))
    ensures Refused(r2, Filter(pre, Line(reg, now, figures))[2..], 0)
  {
    hide ScheduledRun, InLine, Filter, Steady;
    var refuse := Refuse(figures, now);
    RefuseTwo(feed, prio, reg, now, figures, pre, x, post, 0);
    r1 := RegAfter(feed, prio, reg, refuse);
    RefuseTwo(feed, prio, r1, now, figures, pre, x, post, 1);
    r2 := RegAfter(feed, prio, r1, refuse);
  }

  /** The first pair goes out in two runs, and the target keeps waiting. */
  lemma PublishPair(feed: seq<Link>, prio: Priority, reg: Register, now: int, figures: set<Link>,
                    pre: seq<Link>, x: Link, post: seq<Link>) returns (r1: Register, r2: Register)
    requires Distinct(feed) && Standing(feed, prio) == pre + [x] + post
    requires Steady(reg, now, now) && InLine(reg, now, figures, x) && |Filter(pre, Line(reg, now, figures))| > 1
    requires Refused(reg, Filter(pre, Line(reg, now, figures))[2..], 0)
    ensures var publish := Publish(figures, now);
            && r1 == RegAfter(feed, prio, reg, publish) && r2 == RegAfter(feed, prio, r1, publish)
            && x !in ScheduledRun(feed, prio, reg, publish.fates, now).drafted
            && x !in ScheduledRun(feed, prio, r1, publish.fates, now).drafted
    ensures Steady(r2, now, now) && InLine(r2, now, figures, x)
    ensures Filter(pre, Line(r2, now, figures)) == Filter(pre, Line(reg, now, figures))[2..]
    ensures Refused(r2, Filter(pre, Line(r2, now, figures)), 0)
  {
    hide ScheduledRun, InLine, Filter, Steady;
    var publish := Publish(figures, now);
    var ahead := Filter(pre, Line(reg, now, figures));
    assert ahead[1..][1..] == ahead[2..];
    PublishOne(feed, prio, reg, now, figures, pre, x, post);
    r1 := RegAfter(feed, prio, reg, publish);
    PublishOne(feed, prio, r1, now, figures, pre, x, post);
    r2 := RegAfter(feed, prio, r1, publish);
    forall l | l in ahead[2..] ensures Of(r2, l).blocks == 0 {
      assert l in ahead[1..];
    }
  }

  /** Two refusing and two publishing runs in front of a schedule. */
  lemma FourMore(feed: seq<Link>, prio: Priority, reg: Register, r1: Register, r2: Register, r3: Register, r4: Register,
                 rest: seq<RunInput>, now: int, figures: set<Link>, x: Link, m: nat) returns (runs: seq<RunInput>)
    requires var refuse, publish := Refuse(figures, now), Publish(figures, now);
             && r1 == RegAfter(feed, prio, reg, refuse) && r2 == RegAfter(feed, prio, r1, refuse)
             && r3 == RegAfter(feed, prio, r2, publish) && r4 == RegAfter(feed, prio, r3, publish)
             && x !in ScheduledRun(feed, prio, reg, refuse.fates, now).drafted
             && x !in ScheduledRun(feed, prio, r1, refuse.fates, now).drafted
             && x !in ScheduledRun(feed, prio, r2, publish.fates, now).drafted
             && x !in ScheduledRun(feed, prio, r3, publish.fates, now).drafted
    requires KeepsWaiting(feed, prio, r4, rest, now, figures, x, m)
    ensures KeepsWaiting(feed, prio, reg, runs, now, figures, x, m + 4)
  {
    hide ScheduledRun, RegAfter, KeepsWaiting;
    var refuse, publish := Refuse(figures, now), Publish(figures, now);
    NotYet(feed, prio, r3, publish, rest, now, figures, x, m);
    NotYet(feed, prio, r2, publish, [publish] + rest, now, figures, x, m + 1);
    NotYet(feed, prio, r1, refuse, [publish] + ([publish] + rest), now, figures, x, m + 2);
    NotYet(feed, prio, reg, refuse, [refuse] + ([publish] + ([publish] + rest)), now, figures, x, m + 3);
    runs := [refuse] + ([refuse] + ([publish] + ([publish] + rest)));
  }

  /** Each pair ahead is refused twice and goes out in two runs; an odd last post goes out in one. */
  lemma {:induction false} Postpone(feed: seq<Link>, prio: Priority, reg: Register, now: int, figures: set<Link>,
                                    pre: seq<Link>, x: Link, post: seq<Link>) returns (runs: seq<RunInput>)
    requires Distinct(feed) && Standing(feed, prio) == pre + [x] + post
    requires Steady(reg, now, now) && InLine(reg, now, figures, x)
    requires Refused(reg, Filter(pre, Line(reg, now, figures)), 0)
    ensures KeepsWaiting(feed, prio, reg, runs, now, figures, x, Worst(|Filter(pre, Line(reg, now, figures))|))
    decreases |Filter(pre, Line(reg, now, figures))|
  {
    hide ScheduledRun, InLine, Filter, Steady, Refused, RegAfter, Line, Distinct, Standing, Refuse, Publish;
    var p := |Filter(pre, Line(reg, now, figures))|;
    if p == 0 {
      runs := [];
    } else if p == 1 {
      runs := PublishLast(feed, prio, reg, now, figures, pre, x, post);
    } else {
      hide KeepsWaiting;
      var r1, r2 := RefusePair(feed, prio, reg, now, figures, pre, x, post);
      var r3, r4 := PublishPair(feed, prio, r2, now, figures, pre, x, post);
      runs := Postpone(feed, prio, r4, now, figures, pre, x, post);
      runs := FourMore(feed, prio, reg, r1, r2, r3, r4, runs, now, figures, x, Worst(p - 2));
    }
  }

  lemma PublishLast(feed: seq<Link>, prio: Priority, reg: Register, now: int, figures: set<Link>,
                    pre: seq<Link>, x: Link, post: seq<Link>) returns (runs: seq<RunInput>)
    requires Distinct(feed) && Standing(feed, prio) == pre + [x] + post
    requires Steady(reg, now, now) && InLine(reg, now, figures, x)
    requires |Filter(pre, Line(reg, now, figures))| == 1
    ensures KeepsWaiting(feed, prio, reg, runs, now, figures, x, 1)
  {
    var publish := Publish(figures, now);
    PublishOne(feed, prio, reg, now, figures, pre, x, post);
    hide ScheduledRun, InLine, Filter, Steady, Distinct;
    NotYet(feed, prio, reg, publish, [], now, figures, x, 0);
    runs := [publish] + [];
  }

  function Name(i: nat): Link {
    seq(i, k => 'a')
  }

  function Names(p: nat): seq<Link> {
    seq(p, i requires 0 <= i < p => Name(i))
  }

  lemma {:induction false} ReversedTwice(s: seq<Link>)
    ensures |Reversed(s)| == |s| && Reversed(Reversed(s)) == s
  {
    if s != [] {
      ReversedTwice(s[1..]);
      ReversedAppend(Reversed(s[1..]), s[0]);
      assert [s[0]] + s[1..] == s;
    }
  }

  lemma {:induction false} ReversedAppend(s: seq<Link>, l: Link)
    ensures Reversed(s + [l]) == [l] + Reversed(s)
  {
    if s == [] {
      assert s + [l] == [l] && [l][1..] == [];
    } else {
      assert (s + [l])[1..] == s[1..] + [l];
      ReversedAppend(s[1..], l);
      assert ([l] + Reversed(s[1..])) + [s[0]] == [l] + (Reversed(s[1..]) + [s[0]]);
    }
  }

  /** A feed of p + 1 posts whose standing order is by name. */
  lemma NamesStand(p: nat) returns (feed: seq<Link>)
    ensures Distinct(feed) && Standing(feed, map[]) == Names(p) + [Name(p)] + []
  {
    var all := Names(p) + [Name(p)];
    feed := Reversed(all);
    ReversedTwice(all);
    assert Distinct(all) by {
      forall i, j | 0 <= i < j < |all| ensures all[i] != all[j] {
        assert |all[i]| == i && |all[j]| == j;
      }
    }
    ReversedPermutes(all);
    DistinctPermutation(all, feed);
    SortTied(all, RankOrder(map[]));
    assert all == all + [];
  }

  /** With an empty register and figures for all, the whole feed is in line. */
  lemma NamesAreInLine(p: nat, figures: set<Link>, now: int)
    requires figures == (set l | l in Names(p) + [Name(p)])
    ensures Filter(Names(p), Line(map[], now, figures)) == Names(p) && InLine(map[], now, figures, Name(p))
  {
    var all := Names(p) + [Name(p)];
    assert all[p] == Name(p);
    forall l | l in Names(p) ensures Line(map[], now, figures)(l) {
      assert l in all;
    }
    FilterAll(Names(p), Line(map[], now, figures));
  }

  lemma RunsAtOneMoment(runs: seq<RunInput>, now: int, figures: set<Link>)
    requires forall i :: 0 <= i < |runs| ==> runs[i] == Refuse(figures, now) || runs[i] == Publish(figures, now)
    ensures Undisturbed(runs, figures, now)
  {
    forall i, l | 0 <= i < |runs|
      ensures runs[i].fates(l) in {NoFigure, Blocked, Posted} && (runs[i].fates(l) == NoFigure <==> l !in figures)
    {
      assert runs[i] == Refuse(figures, now) || runs[i] == Publish(figures, now);
    }
  }

  /** For every number of posts ahead the bound is met: some schedule of Worst(p) runs keeps the target waiting. */
  lemma WaitIsSharp(p: nat) returns (feed: seq<Link>, reg: Register, runs: seq<RunInput>, figures: set<Link>,
                                     end: int, pre: seq<Link>, x: Link)
    requires p > 0
    ensures Distinct(feed) && Standing(feed, map[]) == pre + [x] + []
    ensures runs != [] && Undisturbed(runs, figures, end) && Steady(reg, runs[0].now, end)
    ensures InLine(reg, runs[0].now, figures, x) && |Filter(pre, Line(reg, runs[0].now, figures))| == p
    ensures |runs| == Worst(p) && !DraftedWithin(feed, map[], reg, runs, x, |runs|)
  {
    hide DraftedWithin, Name, Standing, Sort, Filter;
    pre, x, reg, end := Names(p), Name(p), map[], 0;
    figures := set l | l in pre + [x];
    feed := NamesStand(p);
    NamesAreInLine(p, figures, 0);
    runs := Postpone(feed, map[], reg, 0, figures, pre, x, []);
    RunsAtOneMoment(runs, 0, figures);
    assert runs[0].now == 0;
  }
}
