/**
 The scheduled run of agents/syndicate.py over the blog feed: which item is tried, when it
 is settled, how often its thread goes out, and when the state guard lets the next run start.
 */
module Syndication {
  import opened Common

  const MAX_DRAFT_ATTEMPTS := 3
  const FRESH := 48 * 3600  // seconds

  type Guid = string

  /** `published` is absent when the date cannot be read. */
  datatype Item = Item(guid: Guid, published: Option<int>)

  datatype Status = Blocked | HeldUnarmed | PostFailed | Partial | Posted | DraftFailed | Legacy

  datatype Record = Record(attempts: nat, status: Option<Status>)

  /** The state file, and the size of `seen` that the counter file remembers. */
  datatype Book = Book(seen: seq<Guid>, items: map<Guid, Record>, remembered: nat)

  function Of(items: map<Guid, Record>, g: Guid): Record {
    if g in items then items[g] else Record(0, None)
  }

  predicate Out(b: Book, g: Guid) {
    Of(b.items, g).status in {Some(Posted), Some(Partial)}
  }

  predicate Settled(b: Book, g: Guid) {
    g in b.seen || Out(b, g) || Of(b.items, g).status == Some(DraftFailed)
  }

  predicate IsFresh(i: Item, now: int) {
    i.published.Some? && now - i.published.value <= FRESH
  }

  function OpenAndFresh(b: Book, now: int): Item -> bool {
    (i: Item) => !Settled(b, i.guid) && IsFresh(i, now)
  }

  function OpenAndOld(b: Book, now: int): Item -> bool {
    (i: Item) => !Settled(b, i.guid) && !IsFresh(i, now)
  }

  /** Each entry once, where it first stands. */
  function Once(s: seq<Guid>): seq<Guid> {
    if s == [] then []
    else
      var d := Once(s[..|s| - 1]);
      if s[|s| - 1] in d then d else d + [s[|s| - 1]]
  }

  function MarkOld(b: Book, i: Item): Book {
    b.(seen := Once(b.seen + [i.guid]), items := b.items[i.guid := Of(b.items, i.guid).(status := Some(Legacy))])
  }

  function MarkAllOld(b: Book, stale: seq<Item>): Book {
    if stale == [] then b else MarkOld(MarkAllOld(b, stale[..|stale| - 1]), stale[|stale| - 1])
  }

  // ----- one attempt -----

  datatype Note = Counted | CountFailed | CountHalted

  /** How the attempt goes; the drafter, the gate, the guards and the network decide. */
  datatype Trial =
    | Fails                             // an error before anything was decided or sent
    | NotDrafted(raised: bool)
    | GateRefused(raised: bool)
    | Unarmed
    | GuardHalts
    | NotSent(raised: bool)
    | Sent(whole: bool, note: Note, raised: bool)  // `raised`: an error after the status was set

  datatype Result = Finished | Unfinished | Stopped

  function Tried(r: Record, t: Trial): (Record, Result) {
    var r' := r.(attempts := r.attempts + 1);
    var givingUp := r'.attempts >= MAX_DRAFT_ATTEMPTS;
    match t
    case Fails => (r', Unfinished)
    case NotDrafted(raised) =>
      if givingUp then (r'.(status := Some(DraftFailed)), if raised then Unfinished else Finished) else (r', Unfinished)
    case GateRefused(raised) => (r'.(status := Some(Blocked)), if givingUp && !raised then Finished else Unfinished)
    case Unarmed => (r'.(status := Some(HeldUnarmed)), Finished)
    case GuardHalts => (r', Stopped)
    case NotSent(raised) => (r'.(status := Some(PostFailed)), if givingUp && !raised then Finished else Unfinished)
    case Sent(whole, note, raised) =>
      if note == CountHalted then (r', Stopped)
      else if note == CountFailed then (r', Unfinished)
      else (r'.(status := Some(if whole then Posted else Partial)), if raised then Unfinished else Finished)
  }

  /** Nothing broke, so what the attempt decided was carried through. */
  predicate Undisturbed(t: Trial) {
    match t
    case Fails | GuardHalts => false
    case Unarmed => true
    case NotDrafted(raised) => !raised
    case GateRefused(raised) => !raised
    case NotSent(raised) => !raised
    case Sent(_, note, raised) => note == Counted && !raised
  }

  // ----- one run -----

  /**
   What a run meets: the feed (newest first), whether the state file holds a `seen` list, and
   whether the counter file could be read at each of the places that read it.
   */
  datatype Visit = Visit(feed: seq<Item>, now: int, found: bool, guardReads: bool, firstReads: bool, lastReads: bool,
                         trial: Trial)

  datatype End = FeedEmpty | Halted | Crashed | NothingNew | Worked

  datatype Outcome = Outcome(book: Book, end: End)

  function Pending(b: Book, v: Visit): seq<Item> {
    Filter(v.feed, OpenAndFresh(b, v.now))
  }

  function Archive(b: Book, v: Visit): seq<Item> {
    Filter(v.feed, OpenAndOld(b, v.now))
  }

  predicate GuardPasses(b: Book, v: Visit) {
    v.found && v.guardReads && |b.seen| >= b.remembered
  }

  /** The item a run tries, if it gets that far: the last of the pending ones. */
  function Attempted(b: Book, v: Visit): Option<Guid> {
    if v.feed != [] && GuardPasses(b, v) && v.firstReads && Pending(b, v) != []
    then Some(Pending(b, v)[|Pending(b, v)| - 1].guid) else None
  }

  function Remember(b: Book): Book {
    b.(remembered := if b.remembered < |b.seen| then |b.seen| else b.remembered)
  }

  function TryItem(b: Book, g: Guid, v: Visit): Outcome {
    var (r, result) := Tried(Of(b.items, g), v.trial);
    var tried := b.(items := b.items[g := r]);
    var saved := if result == Finished then tried.(seen := Once(tried.seen + [g])) else tried;
    if result == Stopped then Outcome(tried, Halted)
    else if !v.lastReads then Outcome(saved, Crashed)
    else Outcome(Remember(saved), Worked)
  }

  function RunOnce(b: Book, v: Visit): Outcome {
    if v.feed == [] then Outcome(b, FeedEmpty)
    else if !GuardPasses(b, v) then Outcome(b, Halted)
    else
      var marked := MarkAllOld(b, Archive(b, v));
      if !v.firstReads then Outcome(marked, Crashed)
      else if Pending(b, v) == [] then Outcome(Remember(marked), NothingNew)
      else TryItem(Remember(marked), Attempted(b, v).value, v)
  }

  function Run(b: Book, visits: seq<Visit>): Book {
    if visits == [] then b else RunOnce(Run(b, visits[..|visits| - 1]), visits[|visits| - 1]).book
  }

  // ----- the program -----

  class Syndicate {
    var seen: seq<Guid>
    var items: map<Guid, Record>
    var remembered: nat

    ghost function Contents(): Book
      reads this
    {
      Book(seen, items, remembered)
    }

    constructor (b: Book)
      ensures Contents() == b
    {
      seen, items, remembered := b.seen, b.items, b.remembered;
    }

    method RememberStateSize()
      modifies this`remembered
      ensures Contents() == Remember(old(Contents()))
    {
      if remembered < |seen| {
        remembered := |seen|;
      }
    }

    method MarkSeen(g: Guid)
      modifies this`seen
      ensures seen == Once(old(seen) + [g])
    {
      var all := seen + [g];
      var i := 0;
      seen := [];
      while i < |all|
        invariant 0 <= i <= |all|
        invariant seen == Once(all[..i])
      {
        assert all[..i + 1][..i] == all[..i];
        if all[i] !in seen {
          seen := seen + [all[i]];
        }
        i := i + 1;
      }
      assert all[..i] == all;
    }

    method ProcessItem(g: Guid, trial: Trial) returns (result: Result)
      modifies this`items
      ensures items == old(items)[g := Tried(Of(old(items), g), trial).0]
      ensures result == Tried(Of(old(items), g), trial).1
    {
      var r := Of(items, g);
      r := r.(attempts := r.attempts + 1);
      result := Unfinished;
      match trial {
        case Fails =>
        case NotDrafted(raised) =>
          if r.attempts >= MAX_DRAFT_ATTEMPTS {
            r := r.(status := Some(DraftFailed));
            if !raised {
              result := Finished;
            }
          }
        case GateRefused(raised) =>
          r := r.(status := Some(Blocked));
          if r.attempts >= MAX_DRAFT_ATTEMPTS && !raised {
            result := Finished;
          }
        case Unarmed =>
          r := r.(status := Some(HeldUnarmed));
          result := Finished;
        case GuardHalts =>
          result := Stopped;
        case NotSent(raised) =>
          r := r.(status := Some(PostFailed));
          if r.attempts >= MAX_DRAFT_ATTEMPTS && !raised {
            result := Finished;
          }
        case Sent(whole, note, raised) =>
          if note == CountHalted {
            result := Stopped;
          } else if note == Counted {
            r := r.(status := Some(if whole then Posted else Partial));
            if !raised {
              result := Finished;
            }
          }
      }
      items := items[g := r];
    }

    method MarkArchive(archive: seq<Item>)
      modifies this`seen, this`items
      ensures Contents() == MarkAllOld(old(Contents()), archive)
    {
      hide Once;
      var i := 0;
      while i < |archive|
        invariant 0 <= i <= |archive|
        invariant remembered == old(remembered)
        invariant Contents() == MarkAllOld(old(Contents()), archive[..i])
      {
        assert archive[..i + 1][..i] == archive[..i];
        var g := archive[i].guid;
        items := items[g := Of(items, g).(status := Some(Legacy))];
        MarkSeen(g);
        i := i + 1;
      }
      assert archive[..i] == archive;
    }

    method Run(v: Visit) returns (end: End)
      modifies this
      ensures Outcome(Contents(), end) == RunOnce(old(Contents()), v)
    {
      hide Tried, Once, OpenAndFresh, OpenAndOld, Filter, MarkAllOld, Of;
      if |v.feed| == 0 {
        return FeedEmpty;
      }
      if !v.found || !v.guardReads || |seen| < remembered {
        return Halted;
      }
      var b := Book(seen, items, remembered);
      var pending, archive := Filter(v.feed, OpenAndFresh(b, v.now)), Filter(v.feed, OpenAndOld(b, v.now));
      MarkArchive(archive);
      if !v.firstReads {
        return Crashed;
      }
      RememberStateSize();
      if |pending| == 0 {
        return NothingNew;
      }
      var g := pending[|pending| - 1].guid;
      var result := ProcessItem(g, v.trial);
      if result == Stopped {
        return Halted;
      }
      if result == Finished {
        MarkSeen(g);
      }
      if !v.lastReads {
        return Crashed;
      }
      RememberStateSize();
      end := Worked;
    }
  }

  // ----- what a list without repeats keeps -----

  lemma {:induction false} OnceKeeps(s: seq<Guid>)
    ensures Distinct(Once(s)) && Elements(Once(s)) == Elements(s)
  {
    if s != [] {
      var init, last := s[..|s| - 1], s[|s| - 1];
      OnceKeeps(init);
      assert s == init + [last];
      assert forall g :: g in Once(init) <==> g in Elements(Once(init));
      assert forall g :: g in init <==> g in Elements(init);
    }
  }

  lemma {:induction false} DistinctSize(s: seq<Guid>)
    ensures |Elements(s)| <= |s|
    ensures Distinct(s) <==> |Elements(s)| == |s|
  {
    if s != [] {
      var init, last := s[..|s| - 1], s[|s| - 1];
      DistinctSize(init);
      assert s == init + [last];
      assert Elements(s) == Elements(init) + {last};
      if last in init {
        var j :| 0 <= j < |init| && init[j] == last;
        assert s[j] == s[|s| - 1];
        assert Elements(s) == Elements(init);
      } else if !Distinct(init) {
        var i, j :| 0 <= i < j < |init| && init[i] == init[j];
        assert s[i] == s[j];
      }
    }
  }

  lemma {:induction false} OnceDistinct(s: seq<Guid>)
    requires Distinct(s)
    ensures Once(s) == s
  {
    if s != [] {
      var init, last := s[..|s| - 1], s[|s| - 1];
      OnceDistinct(init);
      assert s == init + [last];
    }
  }

  function Guids(s: seq<Item>): set<Guid> {
    set i | i in s :: i.guid
  }

  /** Marking the archive touches its own items only. */
  lemma {:induction false} MarkAllOldItems(b: Book, stale: seq<Item>)
    ensures var m := MarkAllOld(b, stale);
            && m.remembered == b.remembered
            && forall g :: Of(m.items, g)
                        == if g in Guids(stale) then Of(b.items, g).(status := Some(Legacy)) else Of(b.items, g)
  {
    hide Once;
    if stale != [] {
      var init, last := stale[..|stale| - 1], stale[|stale| - 1];
      MarkAllOldItems(b, init);
      assert stale == init + [last];
      assert Guids(stale) == Guids(init) + {last.guid};
    }
  }

  /** It adds them to `seen`, and leaves that list without repeats. */
  lemma {:induction false} MarkAllOldSeen(b: Book, stale: seq<Item>)
    ensures var m := MarkAllOld(b, stale);
            && (stale == [] ==> m == b)
            && (stale != [] ==> Distinct(m.seen))
            && Elements(m.seen) == Elements(b.seen) + Guids(stale)
  {
    hide Once, Of, Distinct;
    if stale != [] {
      var init, last := stale[..|stale| - 1], stale[|stale| - 1];
      MarkAllOldSeen(b, init);
      var m := MarkAllOld(b, init);
      assert stale == init + [last];
      assert Guids(stale) == Guids(init) + {last.guid};
      OnceKeeps(m.seen + [last.guid]);
      assert Elements(m.seen + [last.guid]) == Elements(m.seen) + {last.guid};
    }
  }

  lemma ArchiveIsUnsettled(b: Book, v: Visit, g: Guid)
    requires Settled(b, g)
    ensures g !in Guids(Archive(b, v))
  {
    forall i | i in Archive(b, v) ensures i.guid != g {
      FilterMember(v.feed, OpenAndOld(b, v.now), i);
    }
  }

  lemma AttemptedIsOpen(b: Book, v: Visit)
    requires Attempted(b, v).Some?
    ensures !Settled(b, Attempted(b, v).value)
  {
    var pending := Pending(b, v);
    FilterMember(v.feed, OpenAndFresh(b, v.now), pending[|pending| - 1]);
  }

  lemma TryItemEffect(b: Book, g: Guid, v: Visit)
    ensures var a := TryItem(b, g, v).book;
            && Of(a.items, g) == Tried(Of(b.items, g), v.trial).0
            && (forall h :: h != g ==> Of(a.items, h) == Of(b.items, h))
            && Elements(a.seen) == Elements(b.seen) + (if Tried(Of(b.items, g), v.trial).1 == Finished then {g} else {})
  {
    hide Tried;
    OnceKeeps(b.seen + [g]);
    assert Elements(b.seen + [g]) == Elements(b.seen) + {g};
  }

  /** What one run does to one item. */
  lemma RunOnceEffect(b: Book, v: Visit, g: Guid)
    ensures var a := RunOnce(b, v).book;
            var tried := Attempted(b, v) == Some(g);
            && (tried ==> !Settled(b, g))
            && Of(a.items, g).attempts == Of(b.items, g).attempts + (if tried then 1 else 0)
            && (Out(a, g) <==> Out(b, g) || (tried && v.trial.Sent? && v.trial.note == Counted))
            && (Settled(b, g) ==> Settled(a, g))
            && (tried && Undisturbed(v.trial) && Of(a.items, g).attempts >= MAX_DRAFT_ATTEMPTS ==> Settled(a, g))
  {
    hide Once, MarkAllOld, Filter, IsFresh, Distinct, Pending, Archive;
    var marked := MarkAllOld(b, Archive(b, v));
    MarkAllOldItems(b, Archive(b, v));
    MarkAllOldSeen(b, Archive(b, v));
    if Settled(b, g) {
      ArchiveIsUnsettled(b, v, g);
    }
    assert g in Elements(b.seen) <==> g in b.seen;
    if Attempted(b, v).Some? {
      AttemptedIsOpen(b, v);
      TryItemEffect(Remember(marked), Attempted(b, v).value, v);
    }
    var a := RunOnce(b, v).book;
    assert g in Elements(a.seen) <==> g in a.seen;
    assert g in Elements(marked.seen) <==> g in marked.seen;
  }

  // ----- what a run leaves and how it ends -----

  /** What an attempt writes into the status of an item, if anything: n is the number of the attempt. */
  function StatusFrom(t: Trial, n: nat): Option<Status> {
    match t
    case GateRefused(_) => Some(Blocked)
    case Unarmed => Some(HeldUnarmed)
    case NotSent(_) => Some(PostFailed)
    case NotDrafted(_) => if n < 3 then None else Some(DraftFailed)
    case Sent(whole, Counted, _) => Some(if whole then Posted else Partial)
    case _ => None
  }

  /** An open item keeps its status unless it is archived or tried. */
  lemma StatusMeans(b: Book, v: Visit, g: Guid)
    requires !Settled(b, g)
    ensures var a, tried := RunOnce(b, v).book, Attempted(b, v) == Some(g);
            var left := StatusFrom(v.trial, Of(b.items, g).attempts + 1);
            Of(a.items, g).status == if tried && left.Some? then left
                                     else if Archived(b, v, g) then Some(Legacy) else Of(b.items, g).status
  {
    hide Once, MarkAllOld, Filter, IsFresh, Distinct, Pending, Archive, Archived, Settled;
    var marked := MarkAllOld(b, Archive(b, v));
    WhatIsArchived(b, v, g);
    MarkAllOldItems(b, Archive(b, v));
    if Attempted(b, v).Some? {
      TryItemEffect(Remember(marked), Attempted(b, v).value, v);
    }
  }

  /** How a run ends, and what the counter file remembers of the size of the list after a whole one. */
  lemma EndMeans(b: Book, v: Visit)
    ensures var o := RunOnce(b, v);
            var passes := v.found && v.guardReads && |b.seen| >= b.remembered;
            var tried := Attempted(b, v).Some?;
            var stopped := v.trial.GuardHalts? || (v.trial.Sent? && v.trial.note == CountHalted);
            && (o.end.FeedEmpty? <==> v.feed == [])
            && (o.end.Halted? <==> v.feed != [] && (!passes || (tried && stopped)))
            && (o.end.Crashed? <==> v.feed != [] && passes && (!v.firstReads || (tried && !stopped && !v.lastReads)))
            && (o.end.NothingNew? <==> v.feed != [] && passes && v.firstReads && !tried)
            && (o.end.Worked? || o.end.NothingNew? ==> o.book.remembered >= |o.book.seen|)
  {
    hide Once, MarkAllOld, Filter, Of;
  }

  // ----- when an item is given up -----

  /**
   What the n-th attempt on an item settles: a counted thread, a draft held back unarmed, or three
   attempts that failed, where an error after the failure only leaves a failed draft settled.
   */
  predicate Settles(t: Trial, n: nat) {
    || t.Unarmed?
    || (t.Sent? && t.note == Counted)
    || (n >= 3 && t.NotDrafted?)
    || (n >= 3 && t.GateRefused? && !t.raised)
    || (n >= 3 && t.NotSent? && !t.raised)
  }

  /** An item of the feed that a run marks as archived: not settled, and not published within two days. */
  predicate Archived(b: Book, v: Visit, g: Guid) {
    && v.feed != [] && v.found && v.guardReads && |b.seen| >= b.remembered
    && exists i :: i in v.feed && i.guid == g && (i.published.None? || v.now - i.published.value > 48 * 3600)
  }

  lemma TrialSettles(r: Record, t: Trial)
    requires r.status !in {Some(Posted), Some(Partial), Some(DraftFailed)}
    ensures Settles(t, r.attempts + 1) <==>
              Tried(r, t).1 == Finished || Tried(r, t).0.status in {Some(Posted), Some(Partial), Some(DraftFailed)}
  {
  }

  lemma WhatIsArchived(b: Book, v: Visit, g: Guid)
    requires !Settled(b, g)
    ensures Archived(b, v, g) <==> v.feed != [] && GuardPasses(b, v) && g in Guids(Archive(b, v))
  {
    hide Settled;
    if i :| i in v.feed && i.guid == g && (i.published.None? || v.now - i.published.value > 48 * 3600) {
      FilterMember(v.feed, OpenAndOld(b, v.now), i);
    }
    if g in Guids(Archive(b, v)) {
      var i :| i in Archive(b, v) && i.guid == g;
      FilterMember(v.feed, OpenAndOld(b, v.now), i);
    }
  }

  /** Exactly when a run settles an open item. */
  lemma WhatSettles(b: Book, v: Visit, g: Guid)
    requires !Settled(b, g)
    ensures Settled(RunOnce(b, v).book, g) <==>
              Archived(b, v, g) || (Attempted(b, v) == Some(g) && Settles(v.trial, Of(b.items, g).attempts + 1))
  {
    hide Once, MarkAllOld, Filter, IsFresh, Distinct, Pending, Archive, Tried, Settles, Archived;
    var marked := MarkAllOld(b, Archive(b, v));
    WhatIsArchived(b, v, g);
    MarkAllOldItems(b, Archive(b, v));
    MarkAllOldSeen(b, Archive(b, v));
    if Attempted(b, v).Some? {
      TryItemEffect(Remember(marked), Attempted(b, v).value, v);
      TrialSettles(Of(marked.items, g), v.trial);
    }
    var a := RunOnce(b, v).book;
    assert g in Elements(a.seen) <==> g in a.seen;
    assert g in Elements(marked.seen) <==> g in marked.seen;
    assert g in Elements(b.seen) <==> g in b.seen;
  }

  /** What an attempt is through with, so that the item joins the list: nothing that an error followed. */
  predicate Concludes(t: Trial, n: nat) {
    || t.Unarmed?
    || (t.Sent? && t.note == Counted && !t.raised)
    || (n >= 3 && (t.NotDrafted? || t.GateRefused? || t.NotSent?) && !t.raised)
  }

  /** Exactly which items a run adds to the list of those seen. */
  lemma WhatIsSeen(b: Book, v: Visit, g: Guid)
    requires !Settled(b, g)
    ensures g in RunOnce(b, v).book.seen <==>
              Archived(b, v, g) || (Attempted(b, v) == Some(g) && Concludes(v.trial, Of(b.items, g).attempts + 1))
  {
    hide Once, MarkAllOld, Filter, IsFresh, Distinct, Pending, Archive, Tried, Concludes, Archived;
    var marked := MarkAllOld(b, Archive(b, v));
    WhatIsArchived(b, v, g);
    MarkAllOldItems(b, Archive(b, v));
    MarkAllOldSeen(b, Archive(b, v));
    if Attempted(b, v).Some? {
      TryItemEffect(Remember(marked), Attempted(b, v).value, v);
      TrialConcludes(Of(marked.items, g), v.trial);
    }
    var a := RunOnce(b, v).book;
    assert g in Elements(a.seen) <==> g in a.seen;
    assert g in Elements(marked.seen) <==> g in marked.seen;
    assert g in Elements(b.seen) <==> g in b.seen;
  }

  lemma TrialConcludes(r: Record, t: Trial)
    ensures Concludes(t, r.attempts + 1) <==> Tried(r, t).1 == Finished
  {
  }

  /** Runs in which an item is never old and never sent with a count nor held back unarmed. */
  ghost predicate OnlyFailures(b: Book, visits: seq<Visit>, g: Guid) {
    forall k :: 0 <= k < |visits| ==>
      && !Archived(Run(b, visits[..k]), visits[k], g)
      && (Attempted(Run(b, visits[..k]), visits[k]) == Some(g) ==>
            !visits[k].trial.Unarmed? && !(visits[k].trial.Sent? && visits[k].trial.note == Counted))
  }

  /** No item is given up early: with fewer than three attempts in all, and only failures, it is still open. */
  lemma {:induction false} OpenBelowThree(b: Book, visits: seq<Visit>, g: Guid)
    requires !Settled(b, g) && OnlyFailures(b, visits, g) && Of(Run(b, visits).items, g).attempts < 3
    ensures !Settled(Run(b, visits), g)
  {
    if visits != [] {
      var init, last := visits[..|visits| - 1], visits[|visits| - 1];
      forall k | 0 <= k < |init| ensures init[k] == visits[k] && init[..k] == visits[..k] {
      }
      hide RunOnce, Settled, Archived;
      assert OnlyFailures(b, init, g);
      RunOnceEffect(Run(b, init), last, g);
      OpenBelowThree(b, init, g);
      WhatSettles(Run(b, init), last, g);
      assert visits[..|init|] == init && visits[|init|] == last;
    }
  }

  /** And the next run over a feed whose only open fresh item it is tries it again. */
  lemma TriedAgain(b: Book, visits: seq<Visit>, g: Guid, next: Visit, item: Item)
    requires !Settled(b, g) && OnlyFailures(b, visits, g) && Of(Run(b, visits).items, g).attempts < 3
    requires GuardPasses(Run(b, visits), next) && next.firstReads && item in next.feed && item.guid == g
    requires item.published.Some? && next.now - item.published.value <= 48 * 3600
    requires forall i :: i in next.feed && i.guid != g ==> Settled(Run(b, visits), i.guid) || !IsFresh(i, next.now)
    ensures Attempted(Run(b, visits), next) == Some(g)
    ensures Of(RunOnce(Run(b, visits), next).book.items, g).attempts == Of(Run(b, visits).items, g).attempts + 1
  {
    var a := Run(b, visits);
    OpenBelowThree(b, visits, g);
    var keep := OpenAndFresh(a, next.now);
    FilterMember(next.feed, keep, item);
    var pending := Pending(a, next);
    FilterMember(next.feed, keep, pending[|pending| - 1]);
    RunOnceEffect(a, next, g);
  }

  // ----- at most one thread -----

  function Count(b: bool): nat {
    if b then 1 else 0
  }

  predicate SendsThread(b: Book, v: Visit, g: Guid) {
    Attempted(b, v) == Some(g) && v.trial.Sent?
  }

  /** The thread is out but the counter could not be written, so the status was never set. */
  predicate LosesThread(b: Book, v: Visit, g: Guid) {
    SendsThread(b, v, g) && v.trial.note != Counted
  }

  function Threads(b: Book, visits: seq<Visit>, g: Guid): nat {
    if visits == [] then 0
    else
      var init := visits[..|visits| - 1];
      Threads(b, init, g) + Count(SendsThread(Run(b, init), visits[|visits| - 1], g))
  }

  function Lost(b: Book, visits: seq<Visit>, g: Guid): nat {
    if visits == [] then 0
    else
      var init := visits[..|visits| - 1];
      Lost(b, init, g) + Count(LosesThread(Run(b, init), visits[|visits| - 1], g))
  }

  /**
   The exact number of threads an item gets: one for each time the count after the thread
   failed, and one if its status says it is out.
   */
  lemma {:induction false} ThreadsAreCounted(b: Book, visits: seq<Visit>, g: Guid)
    ensures Threads(b, visits, g) + Count(Out(b, g)) == Lost(b, visits, g) + Count(Out(Run(b, visits), g))
  {
    if visits != [] {
      var init, last := visits[..|visits| - 1], visits[|visits| - 1];
      ThreadsAreCounted(b, init, g);
      RunOnceEffect(Run(b, init), last, g);
    }
  }

  lemma AtMostOnce(b: Book, visits: seq<Visit>, g: Guid)
    requires Lost(b, visits, g) == 0
    ensures Threads(b, visits, g) <= 1
    ensures Threads(b, visits, g) == 1 <==> !Out(b, g) && Out(Run(b, visits), g)
  {
    ThreadsAreCounted(b, visits, g);
  }

  /** Not so when the count fails: the item is still pending and its thread goes out again. */
  lemma SecondThread(g: Guid, now: int)
    ensures var feed := [Item(g, Some(now))];
            var first := Visit(feed, now, true, true, true, true, Sent(true, CountFailed, false));
            var second := first.(trial := Sent(true, Counted, false));
            Threads(Book([], map[], 0), [first, second], g) == 2
  {
    var item := Item(g, Some(now));
    var feed := [item];
    var first := Visit(feed, now, true, true, true, true, Sent(true, CountFailed, false));
    var second := first.(trial := Sent(true, Counted, false));
    var b := Book([], map[], 0);
    var visits := [first, second];
    assert visits[..1] == [first] && [first][..0] == [];
    FeedOfOne(b, item, now);
    assert Pending(b, first) == [item] && Archive(b, first) == [];
    var a := RunOnce(b, first).book;
    assert a == Book([], map[g := Record(1, None)], 0);
    FeedOfOne(a, item, now);
    assert Pending(a, second) == [item];
    assert Run(b, [first]) == a;
    assert Threads(b, [first], g) == 1;
  }

  lemma FeedOfOne(b: Book, item: Item, now: int)
    requires !Settled(b, item.guid) && IsFresh(item, now)
    ensures Filter([item], OpenAndFresh(b, now)) == [item]
    ensures Filter([item], OpenAndOld(b, now)) == []
  {
    assert [item][1..] == [];
  }

  // ----- settled after three attempts -----

  predicate CalmAttempt(b: Book, v: Visit, g: Guid) {
    Attempted(b, v) == Some(g) && Undisturbed(v.trial)
  }

  function CalmAttempts(b: Book, visits: seq<Visit>, g: Guid): nat {
    if visits == [] then 0
    else
      var init := visits[..|visits| - 1];
      CalmAttempts(b, init, g) + Count(CalmAttempt(Run(b, init), visits[|visits| - 1], g))
  }

  /** Undisturbed attempts on one item number at most three, and the third always settles it. */
  lemma {:induction false} SettledAfterThree(b: Book, visits: seq<Visit>, g: Guid)
    ensures CalmAttempts(b, visits, g) <= 3
    ensures CalmAttempts(b, visits, g) == 3 ==> Settled(Run(b, visits), g)
    ensures Of(Run(b, visits).items, g).attempts >= Of(b.items, g).attempts + CalmAttempts(b, visits, g)
  {
    if visits != [] {
      var init, last := visits[..|visits| - 1], visits[|visits| - 1];
      SettledAfterThree(b, init, g);
      RunOnceEffect(Run(b, init), last, g);
    }
  }

  /** Settled is final: no later run tries the item. */
  lemma {:induction false} SettledStays(b: Book, visits: seq<Visit>, g: Guid)
    requires Settled(b, g)
    ensures Settled(Run(b, visits), g) && Threads(b, visits, g) == 0
  {
    if visits != [] {
      var init, last := visits[..|visits| - 1], visits[|visits| - 1];
      SettledStays(b, init, g);
      RunOnceEffect(Run(b, init), last, g);
    }
  }

  // ----- which item -----

  predicate NewestFirst(feed: seq<Item>) {
    forall i, j :: 0 <= i < j < |feed| && feed[i].published.Some? && feed[j].published.Some?
      ==> feed[i].published.value >= feed[j].published.value
  }

  lemma {:induction false} LastKept(s: seq<Item>, keep: Item -> bool)
    requires Filter(s, keep) != []
    ensures var kept := Filter(s, keep);
            exists i :: 0 <= i < |s| && s[i] == kept[|kept| - 1] && keep(s[i])
              && forall j :: i < j < |s| ==> !keep(s[j])
  {
    var rest := Filter(s[1..], keep);
    if rest == [] {
      assert keep(s[0]);
      forall j | 0 < j < |s| ensures !keep(s[j]) {
        FilterMember(s[1..], keep, s[j]);
        assert s[j] == s[1..][j - 1];
      }
    } else {
      LastKept(s[1..], keep);
      var i :| 0 <= i < |s[1..]| && s[1..][i] == rest[|rest| - 1] && keep(s[1..][i])
        && forall j :: i < j < |s[1..]| ==> !keep(s[1..][j]);
      assert s[i + 1] == rest[|rest| - 1];
      forall j | i + 1 < j < |s| ensures !keep(s[j]) {
        assert s[j] == s[1..][j - 1];
      }
    }
  }

  /** A run that gets to the items tries one exactly when one is open and fresh, and then the oldest such. */
  lemma OldestFirst(b: Book, v: Visit)
    requires GuardPasses(b, v) && v.firstReads
    ensures Attempted(b, v).None? <==> forall i :: i in v.feed ==> Settled(b, i.guid) || !IsFresh(i, v.now)
    ensures Attempted(b, v).Some? && NewestFirst(v.feed) ==>
              exists i :: i in v.feed && i.guid == Attempted(b, v).value && !Settled(b, i.guid) && IsFresh(i, v.now)
                && forall k :: k in v.feed && !Settled(b, k.guid) && IsFresh(k, v.now)
                     ==> i.published.value <= k.published.value
  {
    hide Filter, Settled;
    var keep := OpenAndFresh(b, v.now);
    var pending := Filter(v.feed, keep);
    if pending == [] {
      forall i | i in v.feed ensures !keep(i) {
        FilterMember(v.feed, keep, i);
      }
    } else {
      LastKept(v.feed, keep);
      var n :| 0 <= n < |v.feed| && v.feed[n] == pending[|pending| - 1] && keep(v.feed[n])
        && forall j :: n < j < |v.feed| ==> !keep(v.feed[j]);
      var chosen := v.feed[n];
      assert chosen in v.feed && chosen.guid == Attempted(b, v).value;
      if NewestFirst(v.feed) {
        forall k | k in v.feed && keep(k) ensures chosen.published.value <= k.published.value {
          var j :| 0 <= j < |v.feed| && v.feed[j] == k;
          assert j <= n;
        }
      }
    }
  }

  // ----- the state guard -----

  /** What the guard compares, for a list that holds every entry once. */
  ghost predicate Sound(b: Book) {
    Distinct(b.seen) && b.remembered <= |b.seen|
  }

  function Marked(b: Book, v: Visit): Book {
    MarkAllOld(b, Archive(b, v))
  }

  /** The item that a run finishes with, if any. */
  function Finishes(b: Book, v: Visit): set<Guid> {
    var g := Attempted(b, v);
    if g.Some? && Tried(Of(Marked(b, v).items, g.value), v.trial).1 == Finished then {g.value} else {}
  }

  function Added(b: Book, v: Visit): set<Guid> {
    Guids(Archive(b, v)) + Finishes(b, v)
  }

  function Max(a: nat, b: nat): nat {
    if a < b then b else a
  }

  lemma SizeOf(s: seq<Guid>)
    ensures Distinct(s) ==> |s| == |Elements(s)|
    ensures |Elements(s)| <= |s|
    ensures Distinct(Once(s)) && |Once(s)| == |Elements(s)|
  {
    DistinctSize(s);
    OnceKeeps(s);
    DistinctSize(Once(s));
  }

  /** The two fields the guard compares, after a run that got past it. */
  lemma GuardFields(b: Book, v: Visit)
    requires GuardPasses(b, v) && v.feed != []
    ensures var a, m := RunOnce(b, v).book, Marked(b, v);
            && (Finishes(b, v) == {} ==> a.seen == m.seen)
            && (Finishes(b, v) != {} ==> Attempted(b, v).Some? && Finishes(b, v) == {Attempted(b, v).value})
            && (Finishes(b, v) != {} ==> a.seen == Once(m.seen + [Attempted(b, v).value]))
            && a.remembered <= Max(Max(b.remembered, |m.seen|), |a.seen|)
            && (RunOnce(b, v).end in {NothingNew, Worked}
                ==> a.remembered == Max(Max(b.remembered, |m.seen|), |a.seen|))
  {
    hide Tried, Once, MarkAllOld, Filter, Of, Distinct, Pending, Archive;
    MarkAllOldItems(b, Archive(b, v));
  }

  lemma AddedAreNew(b: Book, v: Visit)
    ensures Added(b, v) !! Elements(b.seen)
  {
    hide Tried, Filter, MarkAllOld, Archive, Pending;
    forall g | g in b.seen ensures g !in Added(b, v) {
      ArchiveIsUnsettled(b, v, g);
      if Attempted(b, v).Some? {
        AttemptedIsOpen(b, v);
      }
    }
  }

  /** The list on its way through a run: first the archive is added, then the item it finishes with. */
  lemma SeenGrows(b: Book, v: Visit)
    requires GuardPasses(b, v) && v.feed != []
    ensures var a, m := RunOnce(b, v).book, Marked(b, v);
            && Elements(m.seen) == Elements(b.seen) + Guids(Archive(b, v))
            && Elements(a.seen) == Elements(m.seen) + Finishes(b, v)
            && (Archive(b, v) == [] ==> m == b)
            && (Archive(b, v) != [] ==> Distinct(m.seen))
            && (Finishes(b, v) == {} ==> a.seen == m.seen)
            && (Finishes(b, v) != {} ==> Distinct(a.seen))
  {
    hide Tried, Once, MarkAllOld, Filter, Of, Distinct, Pending, Archive, RunOnce, Attempted, Finishes, Guids;
    var m := Marked(b, v);
    GuardFields(b, v);
    MarkAllOldSeen(b, Archive(b, v));
    if Finishes(b, v) != {} {
      var g := Attempted(b, v).value;
      OnceKeeps(m.seen + [g]);
      assert Elements(m.seen + [g]) == Elements(m.seen) + {g};
    }
  }

  lemma SeenSizes(b: Book, v: Visit)
    requires GuardPasses(b, v) && v.feed != []
    ensures var a, m := RunOnce(b, v).book, Marked(b, v);
            && |Elements(a.seen)| == |Elements(b.seen)| + |Added(b, v)|
            && |Elements(b.seen)| <= |Elements(m.seen)| <= |Elements(a.seen)|
  {
    hide Tried, Once, MarkAllOld, Filter, Of, Distinct, Pending, Archive, RunOnce, Attempted, Finishes, Guids, Elements;
    var a, m := RunOnce(b, v).book, Marked(b, v);
    SeenGrows(b, v);
    AddedAreNew(b, v);
    assert Elements(a.seen) == Elements(b.seen) + Added(b, v);
    SubsetSize(Elements(b.seen), Elements(m.seen));
    SubsetSize(Elements(m.seen), Elements(a.seen));
  }

  /**
   After a run that ends normally the next guard halts exactly when the run added something
   and the repeats it thereby dropped outnumber what it added.
   */
  lemma NextGuardHalts(b: Book, v: Visit)
    requires RunOnce(b, v).end in {NothingNew, Worked}
    ensures var a := RunOnce(b, v).book;
            |a.seen| < a.remembered <==>
            Added(b, v) != {}
            && |Elements(b.seen)| + |Added(b, v)| < (if Archive(b, v) == [] then |b.seen| else b.remembered)
  {
    assert GuardPasses(b, v) && v.feed != [];
    hide RunOnce, Finishes, Elements, Once, Distinct, Archive, Guids, Marked, Added;
    var a, m := RunOnce(b, v).book, Marked(b, v);
    GuardFields(b, v);
    SeenGrows(b, v);
    SeenSizes(b, v);
    SizeOf(b.seen);
    SizeOf(m.seen);
    SizeOf(a.seen);
    NothingAdded(b, v);
  }

  lemma NothingAdded(b: Book, v: Visit)
    ensures Added(b, v) == {} <==> Archive(b, v) == [] && Finishes(b, v) == {}
  {
    if Archive(b, v) != [] {
      assert Archive(b, v)[0].guid in Guids(Archive(b, v));
    }
  }

  lemma SoundStays(b: Book, v: Visit)
    requires Sound(b)
    ensures Sound(RunOnce(b, v).book)
  {
    if GuardPasses(b, v) && v.feed != [] {
      hide RunOnce, Finishes, Elements, Once, Distinct, Archive, Added, Marked;
      var a, m := RunOnce(b, v).book, Marked(b, v);
      GuardFields(b, v);
      SeenGrows(b, v);
      SeenSizes(b, v);
      SizeOf(b.seen);
      SizeOf(m.seen);
      SizeOf(a.seen);
    }
  }

  /** A list without repeats stays one, whatever happens, and the guard never halts on its size. */
  lemma {:induction false} SizeGuardNeverHalts(b: Book, visits: seq<Visit>)
    requires Sound(b)
    ensures Sound(Run(b, visits))
  {
    if visits != [] {
      var init, v := visits[..|visits| - 1], visits[|visits| - 1];
      SizeGuardNeverHalts(b, init);
      SoundStays(Run(b, init), v);
    }
  }
}
