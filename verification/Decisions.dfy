/**
 The draft registry of agents/reply_decisions.py: the open drafts, replaced as a whole, and
 the append-only log of decisions. A crash can fall between the append and the replace.
 */
module Decisions {
  import opened Common

  const REASON_TTL := 12 * 3600
  const DRAFT_TTL := 24 * 3600
  const NO_REASON := "ohne Grund"

  type DraftId = string

  datatype Result = Sent | Dropped | Expired

  /** `version` and the number of `versions` noted; a draft read back from a message has neither. */
  datatype Entry = Entry(offeredAt: Option<int>, askedAt: Option<int>, feedbackAt: Option<int>,
                         expiresAt: Option<int>, version: nat, versions: nat)

  datatype Row =
    | Closing(id: DraftId, at: int, result: Result, reason: Option<string>)
    | Version(id: DraftId, at: int, number: nat)

  datatype Store = Store(open: map<DraftId, Entry>, log: seq<Row>)

  const EMPTY := Store(map[], [])

  predicate Closed(log: seq<Row>, id: DraftId) {
    exists i :: 0 <= i < |log| && log[i].Closing? && log[i].id == id
  }

  function AppendOnce(log: seq<Row>, row: Row): seq<Row> {
    if Closed(log, row.id) then log else log + [row]
  }

  function FromMessage(date: Option<int>): Entry {
    Entry(date, None, None, None, 1, 0)
  }

  // ----- operations -----

  datatype Op =
    | Register(id: DraftId, now: int)
    | Close(id: DraftId, result: Result, reason: Option<string>, now: int)
    | Feedback(id: DraftId, now: int)
    | NewVersion(id: DraftId, now: int)
    | Ask(id: DraftId, date: Option<int>, now: int)
    | Sweep(order: seq<DraftId>, now: int)  // the open list in the order it is walked

  /** What the clocks say about an open draft, if anything. */
  function Overdue(e: Entry, now: int): Option<(Result, Option<string>)> {
    if e.askedAt.Some? then
      if now - e.askedAt.value <= REASON_TTL then None else Some((Dropped, Some(NO_REASON)))
    else if e.feedbackAt.Some? then None
    else if e.expiresAt.Some? && now <= e.expiresAt.value then None
    else if e.offeredAt.Some? && now - e.offeredAt.value <= DRAFT_TTL then None
    else Some((Expired, None))
  }

  function SweepOne(s: Store, id: DraftId, now: int): Store {
    if id !in s.open then s
    else
      var verdict := Overdue(s.open[id], now);
      if verdict.None? then s
      else Store(s.open - {id}, AppendOnce(s.log, Closing(id, now, verdict.value.0, verdict.value.1)))
  }

  function SweepAll(s: Store, order: seq<DraftId>, now: int): Store
    decreases order
  {
    if order == [] then s else SweepAll(SweepOne(s, order[0], now), order[1..], now)
  }

  /** The lines of a new version; the first version gets its own line together with the second. */
  function VersionRows(id: DraftId, e: Entry, now: int): seq<Row> {
    (if e.versions == 0 then [Version(id, now, 1)] else []) + [Version(id, now, e.version + 1)]
  }

  function Apply(s: Store, op: Op): Store {
    match op
    case Register(id, now) =>
      if id in s.open then s else s.(open := s.open[id := Entry(Some(now), None, None, None, 1, 0)])
    case Close(id, result, reason, now) =>
      Store(s.open - {id}, AppendOnce(s.log, Closing(id, now, result, reason)))
    case Feedback(id, now) =>
      if id !in s.open then s else s.(open := s.open[id := s.open[id].(feedbackAt := Some(now))])
    case NewVersion(id, now) =>
      if id !in s.open then s
      else
        var e := s.open[id];
        Store(s.open[id := e.(version := e.version + 1, versions := e.versions + 1)], s.log + VersionRows(id, e, now))
    case Ask(id, date, now) =>
      var e := if id in s.open then s.open[id] else FromMessage(date);
      s.(open := s.open[id := e.(askedAt := Some(now))])
    case Sweep(order, now) => SweepAll(s, order, now)
  }

  lemma {:induction false} SweepAppends(s: Store, order: seq<DraftId>, now: int)
    ensures s.log <= SweepAll(s, order, now).log
    decreases order
  {
    if order != [] {
      SweepAppends(SweepOne(s, order[0], now), order[1..], now);
    }
  }

  lemma ApplyAppends(s: Store, op: Op)
    ensures s.log <= Apply(s, op).log
  {
    if op.Sweep? {
      SweepAppends(s, op.order, op.now);
    }
  }

  /** One call; `torn` says how many of its lines reached the log before a crash kept the list as it was. */
  datatype Event = Event(op: Op, torn: Option<nat>)

  function After(s: Store, e: Event): Store {
    ApplyAppends(s, e.op);
    var t := Apply(s, e.op);
    if e.torn.None? then t
    else
      var k := |s.log| + e.torn.value;
      Store(s.open, if k <= |t.log| then t.log[..k] else t.log)
  }

  function Run(s: Store, events: seq<Event>): Store {
    if events == [] then s else After(Run(s, events[..|events| - 1]), events[|events| - 1])
  }

  /** The drafts whose registration reached the open list. */
  function Registered(events: seq<Event>): set<DraftId> {
    set i | 0 <= i < |events| && events[i].op.Register? && events[i].torn.None? :: events[i].op.id
  }

  // ----- conservation -----

  ghost predicate OneClosingEach(log: seq<Row>) {
    forall i, j :: 0 <= i < j < |log| && log[i].Closing? && log[j].Closing? ==> log[i].id != log[j].id
  }

  ghost predicate Accounted(s: Store, id: DraftId) {
    id in s.open || Closed(s.log, id)
  }

  lemma AppendOnceKeeps(log: seq<Row>, row: Row)
    requires OneClosingEach(log) && row.Closing?
    ensures OneClosingEach(AppendOnce(log, row)) && Closed(AppendOnce(log, row), row.id)
    ensures forall id :: Closed(log, id) ==> Closed(AppendOnce(log, row), id)
  {
    var more := AppendOnce(log, row);
    if !Closed(log, row.id) {
      assert more[|log|] == row;
      forall id | Closed(log, id) ensures Closed(more, id) {
        var i :| 0 <= i < |log| && log[i].Closing? && log[i].id == id;
        assert more[i] == log[i];
      }
    }
  }

  lemma {:induction false} SweepKeeps(s: Store, order: seq<DraftId>, now: int)
    requires OneClosingEach(s.log)
    ensures OneClosingEach(SweepAll(s, order, now).log)
    ensures forall id :: Accounted(s, id) ==> Accounted(SweepAll(s, order, now), id)
    decreases order
  {
    if order != [] {
      var t := SweepOne(s, order[0], now);
      if order[0] in s.open && Overdue(s.open[order[0]], now).Some? {
        var v := Overdue(s.open[order[0]], now).value;
        AppendOnceKeeps(s.log, Closing(order[0], now, v.0, v.1));
      }
      SweepKeeps(t, order[1..], now);
    }
  }

  lemma ClosedExtends(log: seq<Row>, more: seq<Row>, id: DraftId)
    requires log <= more && Closed(log, id)
    ensures Closed(more, id)
  {
    var i :| 0 <= i < |log| && log[i].Closing? && log[i].id == id;
    assert more[i] == log[i];
  }

  lemma ApplyKeeps(s: Store, op: Op)
    requires OneClosingEach(s.log)
    ensures OneClosingEach(Apply(s, op).log)
    ensures forall id :: Accounted(s, id) ==> Accounted(Apply(s, op), id)
    ensures op.Register? ==> Accounted(Apply(s, op), op.id)
  {
    match op
    case Close(id, result, reason, now) => AppendOnceKeeps(s.log, Closing(id, now, result, reason));
    case Sweep(order, now) => SweepKeeps(s, order, now);
    case NewVersion(id, now) =>
      if id in s.open {
        var more := Apply(s, op).log;
        forall k | Closed(s.log, k) ensures Closed(more, k) {
          ClosedExtends(s.log, more, k);
        }
      }
    case _ =>
  }

  /**
   In every reachable state, crashes after any line included, each registered draft is open
   or has a closing line, and no draft has two.
   */
  lemma {:induction false} DraftsAreConserved(events: seq<Event>)
    ensures var s := Run(EMPTY, events);
            OneClosingEach(s.log) && forall id :: id in Registered(events) ==> Accounted(s, id)
  {
    if events != [] {
      var init, last := events[..|events| - 1], events[|events| - 1];
      var s := Run(EMPTY, init);
      DraftsAreConserved(init);
      ApplyKeeps(s, last.op);
      ApplyAppends(s, last.op);
      var t := Run(EMPTY, events);
      assert s.log <= t.log;
      forall id | id in Registered(events) ensures Accounted(t, id) {
        if id in Registered(init) && Closed(s.log, id) {
          ClosedExtends(s.log, t.log, id);
        }
      }
    }
  }

  // ----- the sweep -----

  /** Which open drafts a sweep takes: exactly the overdue ones it walks over. */
  lemma {:induction false} SweepTakesOverdue(s: Store, order: seq<DraftId>, now: int, id: DraftId)
    ensures id in SweepAll(s, order, now).open <==>
            id in s.open && !(id in order && Overdue(s.open[id], now).Some?)
    ensures id in SweepAll(s, order, now).open ==> SweepAll(s, order, now).open[id] == s.open[id]
    decreases order
  {
    if order != [] {
      SweepTakesOverdue(SweepOne(s, order[0], now), order[1..], now, id);
      assert order == [order[0]] + order[1..];
    }
  }

  /** Asked for a reason more than twelve hours ago. */
  predicate LeftWithoutReason(e: Entry, now: int) {
    e.askedAt.Some? && now - e.askedAt.value > 12 * 3600
  }

  /** Neither asked nor commented on, past its own end if it has one, and not offered within a day. */
  predicate LeftUnanswered(e: Entry, now: int) {
    && e.askedAt.None? && e.feedbackAt.None?
    && (e.expiresAt.Some? ==> e.expiresAt.value < now)
    && (e.offeredAt.Some? ==> now - e.offeredAt.value > 24 * 3600)
  }

  /** The line a swept draft gets. */
  predicate SweptLine(row: Row, e: Entry, now: int) {
    || (LeftWithoutReason(e, now) && row == Closing(row.id, now, Dropped, Some("ohne Grund")))
    || (LeftUnanswered(e, now) && row == Closing(row.id, now, Expired, None))
  }

  lemma OverdueMeans(e: Entry, now: int)
    ensures Overdue(e, now).Some? <==> LeftWithoutReason(e, now) || LeftUnanswered(e, now)
    ensures forall id :: Overdue(e, now).Some? ==> SweptLine(Closing(id, now, Overdue(e, now).value.0, Overdue(e, now).value.1), e, now)
  {
  }

  /** Every line a sweep writes is that of a draft it took, with the result and the reason its clock gives. */
  lemma {:induction false} SweepLines(s: Store, order: seq<DraftId>, now: int)
    ensures var t := SweepAll(s, order, now);
            && s.log <= t.log
            && (forall i :: |s.log| <= i < |t.log| ==>
                  t.log[i].id in order && t.log[i].id in s.open && SweptLine(t.log[i], s.open[t.log[i].id], now))
            && (forall id :: id in s.open && id !in t.open ==> Closed(t.log, id))
    decreases order
  {
    if order != [] {
      hide Overdue, SweptLine;
      var id, u := order[0], SweepOne(s, order[0], now);
      SweepLines(u, order[1..], now);
      var t := SweepAll(s, order, now);
      SweepAppends(u, order[1..], now);
      if id in s.open && id !in u.open {
        OverdueMeans(s.open[id], now);
        var v := Overdue(s.open[id], now).value;
        OneMoreClosed(s.log, Closing(id, now, v.0, v.1));
        ClosedExtends(u.log, t.log, id);
      }
    }
  }

  lemma SweepMeans(s: Store, order: seq<DraftId>, now: int)
    ensures var t := SweepAll(s, order, now);
            && (forall id :: id in t.open <==>
                  id in s.open && !(id in order && (LeftWithoutReason(s.open[id], now) || LeftUnanswered(s.open[id], now))))
            && (forall id :: id in t.open ==> t.open[id] == s.open[id])
            && s.log <= t.log
            && (forall i :: |s.log| <= i < |t.log| ==>
                  t.log[i].id in order && t.log[i].id in s.open && SweptLine(t.log[i], s.open[t.log[i].id], now))
            && (forall id :: id in s.open && id !in t.open ==> Closed(t.log, id))
  {
    hide SweepAll, Overdue, LeftWithoutReason, LeftUnanswered, SweptLine, Closed;
    SweepLines(s, order, now);
    var t := SweepAll(s, order, now);
    forall id
      ensures id in t.open <==>
        (id in s.open && !(id in order && (LeftWithoutReason(s.open[id], now) || LeftUnanswered(s.open[id], now))))
      ensures id in t.open ==> t.open[id] == s.open[id]
    {
      SweepTakesOverdue(s, order, now, id);
      if id in s.open {
        OverdueMeans(s.open[id], now);
      }
    }
  }

  /** A draft with feedback and no question about a reason outlives every sweep. */
  lemma FeedbackSurvivesSweeps(s: Store, order: seq<DraftId>, now: int, id: DraftId)
    requires id in s.open && s.open[id].feedbackAt.Some? && s.open[id].askedAt.None?
    ensures id in SweepAll(s, order, now).open && SweepAll(s, order, now).open[id] == s.open[id]
  {
    SweepTakesOverdue(s, order, now, id);
  }

  // ----- what becomes of a draft -----

  /** What one call does to the entry of one draft. */
  lemma CallMeans(s: Store, op: Op, id: DraftId)
    requires !op.Sweep?
    ensures var t := Apply(s, op);
            && (op.id != id ==> (id in t.open <==> id in s.open) && (id in s.open ==> t.open[id] == s.open[id]))
            && (op.Register? && op.id == id && id in s.open ==> t == s)
            && (op.Register? && op.id == id && id !in s.open ==>
                  id in t.open && t.open[id] == Entry(Some(op.now), None, None, None, 1, 0))
            && (op.Close? && op.id == id ==> id !in t.open && Closed(t.log, id))
            && (op.Close? && op.id == id && !Closed(s.log, id) ==> t.log == s.log + [Closing(id, op.now, op.result, op.reason)])
            && (op.Feedback? && op.id == id ==> (id in t.open <==> id in s.open))
            && (op.Feedback? && op.id == id && id in s.open ==> t.open[id] == s.open[id].(feedbackAt := Some(op.now)))
            && (op.Ask? && op.id == id ==> id in t.open && t.open[id].askedAt == Some(op.now))
            && (op.Ask? && op.id == id && id in s.open ==> t.open[id] == s.open[id].(askedAt := Some(op.now)))
            && (op.Ask? && op.id == id && id !in s.open ==>
                  t.open[id].offeredAt == op.date && t.open[id].feedbackAt.None? && t.open[id].versions == 0)
            && (op.Register? || op.Feedback? || op.Ask? || (op.Close? && Closed(s.log, op.id)) ==> t.log == s.log)
  {
    if op.Close? {
      OneMoreClosed(s.log, Closing(op.id, op.now, op.result, op.reason));
    }
  }

  /** A call that leaves a draft alone: one about another draft, or a sweep before its clock has run out. */
  predicate LeavesAlone(op: Op, id: DraftId, e: Entry) {
    if op.Sweep? then id in op.order ==> !LeftWithoutReason(e, op.now) && !LeftUnanswered(e, op.now) else op.id != id
  }

  lemma {:induction false} AloneStays(s: Store, events: seq<Event>, id: DraftId)
    requires id in s.open && forall e :: e in events ==> LeavesAlone(e.op, id, s.open[id])
    ensures id in Run(s, events).open && Run(s, events).open[id] == s.open[id]
  {
    if events != [] {
      var init, last := events[..|events| - 1], events[|events| - 1];
      AloneStays(s, init, id);
      assert last in events;
      var mid := Run(s, init);
      if last.op.Sweep? {
        SweepMeans(mid, last.op.order, last.op.now);
      } else {
        CallMeans(mid, last.op, id);
      }
    }
  }

  /** The sweep that takes a draft writes its line, unless a line stands already. */
  lemma SweepCloses(s: Store, order: seq<DraftId>, now: int, id: DraftId)
    requires id in s.open && id in order && !Closed(s.log, id)
    ensures var t := SweepAll(s, order, now);
            && (LeftWithoutReason(s.open[id], now) ==> id !in t.open && Closing(id, now, Dropped, Some("ohne Grund")) in t.log)
            && (LeftUnanswered(s.open[id], now) ==> id !in t.open && Closing(id, now, Expired, None) in t.log)
            && (!LeftWithoutReason(s.open[id], now) && !LeftUnanswered(s.open[id], now) ==> id in t.open)
  {
    SweepMeans(s, order, now);
    var t := SweepAll(s, order, now);
    hide SweepAll;
    if id !in t.open {
      var i :| 0 <= i < |t.log| && t.log[i].Closing? && t.log[i].id == id;
      assert i >= |s.log|;
      assert SweptLine(t.log[i], s.open[id], now);
      assert t.log[i] in t.log;
    }
  }

  /**
   A registered draft that nobody touches is still open as long as no sweep comes more than a day
   after its registration; the first that does closes it as expired, without a reason.
   */
  lemma UntouchedExpires(s: Store, id: DraftId, at: int, events: seq<Event>, order: seq<DraftId>, now: int)
    requires id !in s.open && id in order
    requires forall e :: e in events ==> if e.op.Sweep? then e.op.now <= at + 24 * 3600 else e.op.id != id
    ensures var u := Run(Apply(s, Register(id, at)), events);
            var t := Apply(u, Sweep(order, now));
            && id in u.open
            && (id in t.open <==> now <= at + 24 * 3600)
            && (id !in t.open && !Closed(u.log, id) ==> Closing(id, now, Expired, None) in t.log)
  {
    CallMeans(s, Register(id, at), id);
    AloneStays(Apply(s, Register(id, at)), events, id);
    var u := Run(Apply(s, Register(id, at)), events);
    SweepMeans(u, order, now);
    if !Closed(u.log, id) {
      SweepCloses(u, order, now, id);
    }
  }

  /** A draft asked about and not answered stays for twelve hours and is then dropped without a reason. */
  lemma UnansweredDrops(s: Store, id: DraftId, date: Option<int>, at: int, events: seq<Event>, order: seq<DraftId>, now: int)
    requires id in order
    requires forall e :: e in events ==> if e.op.Sweep? then e.op.now <= at + 12 * 3600 else e.op.id != id
    ensures var u := Run(Apply(s, Ask(id, date, at)), events);
            var t := Apply(u, Sweep(order, now));
            && id in u.open
            && (id in t.open <==> now <= at + 12 * 3600)
            && (id !in t.open && !Closed(u.log, id) ==> Closing(id, now, Dropped, Some("ohne Grund")) in t.log)
  {
    CallMeans(s, Ask(id, date, at), id);
    AloneStays(Apply(s, Ask(id, date, at)), events, id);
    var u := Run(Apply(s, Ask(id, date, at)), events);
    SweepMeans(u, order, now);
    if !Closed(u.log, id) {
      SweepCloses(u, order, now, id);
    }
  }

  /** A draft with feedback and no question stays open whatever the sweeps do. */
  lemma FeedbackKeeps(s: Store, id: DraftId, at: int, events: seq<Event>)
    requires id in s.open && s.open[id].askedAt.None?
    requires forall e :: e in events ==> e.op.Sweep? || e.op.id != id
    ensures id in Run(Apply(s, Feedback(id, at)), events).open
  {
    CallMeans(s, Feedback(id, at), id);
    AloneStays(Apply(s, Feedback(id, at)), events, id);
  }

  // ----- version numbers -----

  function Numbers(log: seq<Row>, id: DraftId): seq<nat> {
    if log == [] then []
    else
      var last := log[|log| - 1];
      Numbers(log[..|log| - 1], id) + (if last.Version? && last.id == id then [last.number] else [])
  }

  function UpTo(n: nat): seq<nat> {
    if n == 0 then [] else UpTo(n - 1) + [n]
  }

  ghost predicate WithoutGaps(numbers: seq<nat>) {
    numbers == UpTo(|numbers|)
  }

  lemma {:induction false} UpToLength(n: nat)
    ensures |UpTo(n)| == n && WithoutGaps(UpTo(n))
  {
    if n > 0 {
      UpToLength(n - 1);
    }
  }

  lemma {:induction false} NumbersAppend(log: seq<Row>, rows: seq<Row>, id: DraftId)
    ensures Numbers(log + rows, id) == Numbers(log, id) + Numbers(rows, id)
  {
    if rows == [] {
      assert log + rows == log;
    } else {
      var init, last := rows[..|rows| - 1], rows[|rows| - 1];
      assert (log + rows)[..|log + rows| - 1] == log + init;
      NumbersAppend(log, init, id);
    }
  }

  lemma {:induction false} NoNumbers(rows: seq<Row>, id: DraftId)
    requires forall i :: 0 <= i < |rows| ==> rows[i].Closing? || rows[i].id != id
    ensures Numbers(rows, id) == []
  {
    if rows != [] {
      NoNumbers(rows[..|rows| - 1], id);
    }
  }

  lemma {:induction false} SweepAppendsClosings(s: Store, order: seq<DraftId>, now: int)
    ensures s.log <= SweepAll(s, order, now).log
    ensures forall i :: |s.log| <= i < |SweepAll(s, order, now).log| ==> SweepAll(s, order, now).log[i].Closing?
    decreases order
  {
    if order != [] {
      SweepAppendsClosings(SweepOne(s, order[0], now), order[1..], now);
      SweepAppends(SweepOne(s, order[0], now), order[1..], now);
    }
  }

  /** Only a new version of the draft itself writes numbers for it. */
  lemma OthersKeepNumbers(s: Store, e: Event, id: DraftId)
    requires !(e.op.NewVersion? && e.op.id == id)
    ensures Numbers(After(s, e).log, id) == Numbers(s.log, id)
  {
    var t := After(s, e);
    OthersAppend(s, e.op, id);
    ApplyAppends(s, e.op);
    var rows := t.log[|s.log|..];
    assert s.log <= t.log <= Apply(s, e.op).log;
    assert t.log == s.log + rows;
    NoNumbers(rows, id);
    NumbersAppend(s.log, rows, id);
  }

  lemma OthersAppend(s: Store, op: Op, id: DraftId)
    requires !(op.NewVersion? && op.id == id)
    ensures var t := Apply(s, op);
            s.log <= t.log && forall i :: |s.log| <= i < |t.log| ==> t.log[i].Closing? || t.log[i].id != id
  {
    if op.Sweep? {
      SweepAppendsClosings(s, op.order, op.now);
    }
  }

  /** An open draft knows how far its lines are numbered. */
  ghost predicate Tracked(s: Store, id: DraftId) {
    && WithoutGaps(Numbers(s.log, id))
    && (id in s.open ==>
        && s.open[id].version == s.open[id].versions + 1
        && |Numbers(s.log, id)| == if s.open[id].versions == 0 then 0 else s.open[id].version)
  }

  /** The i-th call writes version lines for the draft: it is on the list, and a line reached the log. */
  ghost predicate Writes(events: seq<Event>, id: DraftId, i: int) {
    && 0 <= i < |events| && events[i].op.NewVersion? && events[i].op.id == id
    && id in Run(EMPTY, events[..i]).open && events[i].torn != Some(0)
  }

  ghost predicate OnList(events: seq<Event>, id: DraftId, k: int) {
    0 <= k <= |events| && id in Run(EMPTY, events[..k]).open
  }

  /** Before call n: every version written so far reached the list, and the draft has not left it since. */
  ghost predicate Ready(events: seq<Event>, id: DraftId, n: int) {
    forall i :: 0 <= i < n && Writes(events, id, i) ==> events[i].torn.None? && forall k :: i < k <= n ==> OnList(events, id, k)
  }

  ghost predicate InSequence(events: seq<Event>, id: DraftId) {
    forall n :: Writes(events, id, n) ==> Ready(events, id, n)
  }

  /** The calls before the last look the same from the shorter history. */
  lemma PrefixAlike(events: seq<Event>, id: DraftId)
    requires events != []
    ensures var init := events[..|events| - 1];
            && (forall i :: i < |init| ==> Writes(init, id, i) == Writes(events, id, i))
            && (forall k :: k <= |init| ==> OnList(init, id, k) == OnList(events, id, k))
  {
    var init := events[..|events| - 1];
    forall i | 0 <= i <= |init| ensures init[..i] == events[..i] {
    }
    hide Run;
  }

  lemma ReadySame(events: seq<Event>, id: DraftId, n: int)
    requires events != [] && n < |events|
    ensures Ready(events[..|events| - 1], id, n) == Ready(events, id, n)
  {
    PrefixAlike(events, id);
    hide Writes, OnList;
  }

  lemma ReadyAlike(events: seq<Event>, id: DraftId)
    requires events != []
    ensures var init := events[..|events| - 1];
            && (forall n :: n <= |init| ==> Ready(init, id, n) == Ready(events, id, n))
            && (InSequence(events, id) <==> InSequence(init, id) && (Writes(events, id, |init|) ==> Ready(events, id, |init|)))
  {
    var init := events[..|events| - 1];
    PrefixAlike(events, id);
    WritesAreCalls(events, id);
    WritesAreCalls(init, id);
    hide Writes, OnList, Ready;
    forall n | n <= |init| ensures Ready(init, id, n) == Ready(events, id, n) {
      ReadySame(events, id, n);
    }
    if InSequence(init, id) && (Writes(events, id, |init|) ==> Ready(events, id, |init|)) {
      forall n | Writes(events, id, n) ensures Ready(events, id, n) {
        assert n < |init| ==> Writes(init, id, n);
      }
    }
    if InSequence(events, id) {
      forall n | Writes(init, id, n) ensures Ready(init, id, n) {
        assert Writes(events, id, n);
      }
    }
  }

  lemma WritesAreCalls(events: seq<Event>, id: DraftId)
    ensures forall n :: Writes(events, id, n) ==> 0 <= n < |events|
  {
  }

  /** Being ready, one call on. */
  lemma ReadyMore(events: seq<Event>, id: DraftId)
    requires events != []
    ensures var last := |events| - 1;
            Ready(events, id, |events|) <==>
              && Ready(events, id, last) && (Writes(events, id, last) ==> events[last].torn.None?)
              && (Written(events, id) ==> OnList(events, id, |events|))
  {
    hide Writes, OnList;
    WritesAreCalls(events, id);
    if Ready(events, id, |events|) && Written(events, id) {
      var i :| Writes(events, id, i);
      assert OnList(events, id, |events|);
    }
  }

  /**
   What the numbers of a draft look like beside its entry: `written` that there are any, `ready`
   that the next version will follow them, `inSequence` that all so far did.
   */
  ghost predicate Aligned(s: Store, id: DraftId, written: bool, ready: bool, inSequence: bool) {
    var numbers := Numbers(s.log, id);
    && (id in s.open ==> s.open[id].version == s.open[id].versions + 1)
    && (numbers != [] <==> written)
    && (!written ==> ready)
    && (numbers == [] && id in s.open ==> s.open[id].versions == 0)
    && (WithoutGaps(numbers) <==> inSequence)
    && (ready && written ==> id in s.open)
    && (inSequence && written && id in s.open ==> (ready <==> s.open[id].versions > 0 && |numbers| == s.open[id].version))
  }

  ghost predicate Written(events: seq<Event>, id: DraftId) {
    exists i :: Writes(events, id, i)
  }

  /** A call that writes nothing for a draft leaves its entry's version alone, or puts a new entry on the list. */
  lemma OthersKeepEntry(s: Store, e: Event, id: DraftId)
    requires !(e.op.NewVersion? && e.op.id == id && id in s.open && e.torn != Some(0))
    ensures Numbers(After(s, e).log, id) == Numbers(s.log, id)
    ensures var t := After(s, e);
            id in t.open ==>
              if id in s.open then t.open[id].version == s.open[id].version && t.open[id].versions == s.open[id].versions
              else t.open[id].version == 1 && t.open[id].versions == 0
  {
    if e.op.NewVersion? && e.op.id == id {
      assert After(s, e).log == s.log;
    } else {
      OthersKeepNumbers(s, e, id);
      if e.op.Sweep? {
        SweepTakesOverdue(s, e.op.order, e.op.now, id);
      }
    }
  }

  /** The lines of a call that reach the log. */
  function WrittenRows(s: Store, e: Event, id: DraftId): seq<Row>
    requires e.op.NewVersion? && id in s.open
  {
    var rows := VersionRows(id, s.open[id], e.op.now);
    if e.torn.None? || e.torn.value > |rows| then rows else rows[..e.torn.value]
  }

  lemma WriteAppends(s: Store, e: Event, id: DraftId)
    requires e.op.NewVersion? && e.op.id == id && id in s.open
    ensures After(s, e).log == s.log + WrittenRows(s, e, id)
    ensures e.torn.Some? ==> After(s, e).open == s.open
    ensures e.torn.None? ==> var t, entry := After(s, e), s.open[id];
              id in t.open && t.open[id].version == entry.version + 1 && t.open[id].versions == entry.versions + 1
  {
    hide Numbers;
    ApplyAppends(s, e.op);
  }

  lemma WrittenNumbers(s: Store, e: Event, id: DraftId)
    requires e.op.NewVersion? && id in s.open && e.torn != Some(0)
    ensures Numbers(WrittenRows(s, e, id), id)
         == if s.open[id].versions > 0 then [s.open[id].version + 1]
            else if e.torn == Some(1) then [1] else [1, s.open[id].version + 1]
  {
    RowNumbers(id, s.open[id], e.op.now);
    OneNumber(id, e.op.now, 1);
    hide Numbers;
    var entry := s.open[id];
    if entry.versions == 0 && e.torn == Some(1) {
      assert WrittenRows(s, e, id) == [Version(id, e.op.now, 1)];
    } else {
      assert WrittenRows(s, e, id) == VersionRows(id, entry, e.op.now);
    }
  }

  /** The numbers a call writes, and what it does to the entry. */
  lemma WriteNumbers(s: Store, e: Event, id: DraftId)
    requires e.op.NewVersion? && e.op.id == id && id in s.open && e.torn != Some(0)
    ensures var t, entry := After(s, e), s.open[id];
            && Numbers(t.log, id) == Numbers(s.log, id)
                 + (if entry.versions > 0 then [entry.version + 1] else if e.torn == Some(1) then [1] else [1, entry.version + 1])
            && id in t.open
            && (if e.torn.None? then t.open[id].version == entry.version + 1 && t.open[id].versions == entry.versions + 1
                else t.open == s.open)
  {
    WriteAppends(s, e, id);
    WrittenNumbers(s, e, id);
    NumbersAppend(s.log, WrittenRows(s, e, id), id);
  }

  lemma OneNumber(id: DraftId, now: int, n: nat)
    ensures Numbers([Version(id, now, n)], id) == [n]
  {
    assert [Version(id, now, n)][..0] == [];
    assert [] + [n] == [n];
  }

  /** Numbers go on without a gap exactly when they had none and the next one follows. */
  lemma GapsMore(numbers: seq<nat>, n: nat)
    ensures WithoutGaps(numbers + [n]) <==> WithoutGaps(numbers) && n == |numbers| + 1
  {
    var more := numbers + [n];
    assert more[..|numbers|] == numbers;
    UpToLength(|numbers|);
    assert UpTo(|more|) == UpTo(|numbers|) + [|more|];
    assert UpTo(|more|)[..|numbers|] == UpTo(|numbers|);
    assert UpTo(|more|)[|numbers|] == |more| && more[|numbers|] == n;
  }

  lemma RestAligns(s: Store, e: Event, id: DraftId, written: bool, ready: bool, inSequence: bool)
    requires Aligned(s, id, written, ready, inSequence)
    requires !(e.op.NewVersion? && e.op.id == id && id in s.open && e.torn != Some(0))
    ensures var t := After(s, e); Aligned(t, id, written, ready && (written ==> id in t.open), inSequence)
  {
    OthersKeepEntry(s, e, id);
    hide After, Numbers, WithoutGaps;
  }

  lemma WriteAligns(s: Store, e: Event, id: DraftId, written: bool, ready: bool, inSequence: bool)
    requires Aligned(s, id, written, ready, inSequence)
    requires e.op.NewVersion? && e.op.id == id && id in s.open && e.torn != Some(0)
    ensures Aligned(After(s, e), id, true, ready && e.torn.None?, inSequence && ready)
  {
    var numbers, entry := Numbers(s.log, id), s.open[id];
    WriteNumbers(s, e, id);
    hide After, Numbers, WithoutGaps;
    if entry.versions > 0 {
      GapsMore(numbers, entry.version + 1);
    } else {
      GapsMore(numbers, 1);
      GapsMore(numbers + [1], entry.version + 1);
      assert numbers + [1, entry.version + 1] == (numbers + [1]) + [entry.version + 1];
    }
  }

  lemma {:induction false} NumbersAreAligned(events: seq<Event>, id: DraftId)
    ensures Aligned(Run(EMPTY, events), id, Written(events, id), Ready(events, id, |events|), InSequence(events, id))
  {
    if events == [] {
      assert forall i :: !Writes(events, id, i);
      UpToLength(0);
    } else {
      var init, last := events[..|events| - 1], events[|events| - 1];
      var s := Run(EMPTY, init);
      NumbersAreAligned(init, id);
      ReadyAlike(events, id);
      ReadyMore(events, id);
      WrittenMore(events, id);
      LastCall(events, id);
      hide After, Aligned, Ready, InSequence, Run, Writes, OnList, Written;
      if Writes(events, id, |init|) {
        WriteAligns(s, last, id, Written(init, id), Ready(init, id, |init|), InSequence(init, id));
        StaysOpen(s, last, id);
      } else {
        RestAligns(s, last, id, Written(init, id), Ready(init, id, |init|), InSequence(init, id));
      }
    }
  }

  lemma LastCall(events: seq<Event>, id: DraftId)
    requires events != []
    ensures var init, last := events[..|events| - 1], events[|events| - 1];
            var s := Run(EMPTY, init);
            && Run(EMPTY, events) == After(s, last)
            && (Writes(events, id, |init|) <==>
                last.op.NewVersion? && last.op.id == id && id in s.open && last.torn != Some(0))
            && (OnList(events, id, |events|) <==> id in After(s, last).open)
  {
    hide After;
    assert events[..|events|] == events;
  }

  lemma StaysOpen(s: Store, e: Event, id: DraftId)
    requires e.op.NewVersion? && id in s.open
    ensures id in After(s, e).open
  {
  }

  lemma WrittenMore(events: seq<Event>, id: DraftId)
    requires events != []
    ensures Written(events, id) <==> Written(events[..|events| - 1], id) || Writes(events, id, |events| - 1)
  {
    hide Run;
    PrefixAlike(events, id);
    var init := events[..|events| - 1];
    if i :| Writes(events, id, i) {
      assert i < |init| ==> Writes(init, id, i);
    }
    if i :| Writes(init, id, i) {
      assert Writes(events, id, i);
    }
  }

  /** The version lines of a draft read 1, 2, 3 and on exactly when every new version found its draft ready. */
  lemma VersionsAreNumbered(events: seq<Event>, id: DraftId)
    ensures WithoutGaps(Numbers(Run(EMPTY, events).log, id)) <==> InSequence(events, id)
  {
    NumbersAreAligned(events, id);
  }

  /** And no version line, torn or not, closes a draft. */
  lemma VersionsCloseNothing(s: Store, id: DraftId, now: int, torn: Option<nat>, k: DraftId)
    ensures Closed(After(s, Event(NewVersion(id, now), torn)).log, k) <==> Closed(s.log, k)
  {
    var e := Event(NewVersion(id, now), torn);
    var t := After(s, e);
    ApplyAppends(s, e.op);
    assert s.log <= t.log && forall i :: |s.log| <= i < |t.log| ==> t.log[i].Version?;
    if Closed(s.log, k) {
      var i :| 0 <= i < |s.log| && s.log[i].Closing? && s.log[i].id == k;
      assert t.log[i] == s.log[i];
    }
    if i :| 0 <= i < |t.log| && t.log[i].Closing? && t.log[i].id == k {
      assert i < |s.log| && s.log[i] == t.log[i];
    }
  }

  /** A crash between the lines of a new version and the open list makes the next version repeat numbers. */
  lemma TornVersionRepeats(s: Store, id: DraftId, torn: nat, now: int, later: int)
    requires Tracked(s, id) && id in s.open && torn > 0
    ensures var t := After(After(s, Event(NewVersion(id, now), Some(torn))), Event(NewVersion(id, later), None));
            !WithoutGaps(Numbers(t.log, id))
  {
    hide After, VersionRows, Numbers;
    var e := s.open[id];
    var mid := After(s, Event(NewVersion(id, now), Some(torn)));
    var before, kept := Numbers(s.log, id), Numbers(mid.log, id);
    TornKept(s, id, torn, now);
    var t := After(mid, Event(NewVersion(id, later), None));
    RowNumbers(id, e, later);
    VersionAppends(mid, id, later);
    NumbersAppend(mid.log, VersionRows(id, e, later), id);
    var all := Numbers(t.log, id);
    UpToAt(|all|);
    if e.versions == 0 {
      assert all == kept + [1, 2] && all[|all| - 2] == 1;
    } else {
      assert all == kept + [e.version + 1] && all[|all| - 1] == e.version + 1;
    }
  }

  lemma VersionAppends(s: Store, id: DraftId, now: int)
    requires id in s.open
    ensures After(s, Event(NewVersion(id, now), None)).log == s.log + VersionRows(id, s.open[id], now)
  {
  }

  lemma TornKept(s: Store, id: DraftId, torn: nat, now: int)
    requires Tracked(s, id) && id in s.open && torn > 0
    ensures var t := After(s, Event(NewVersion(id, now), Some(torn)));
            t.open == s.open && |Numbers(t.log, id)| > |Numbers(s.log, id)|
  {
    var rows := VersionRows(id, s.open[id], now);
    var t := After(s, Event(NewVersion(id, now), Some(torn)));
    var kept := if torn <= |rows| then rows[..torn] else rows;
    assert t.log == s.log + kept;
    NumbersAppend(s.log, kept, id);
    RowNumbers(id, s.open[id], now);
    if s.open[id].versions == 0 && torn == 1 {
      assert kept == rows[..1];
    } else {
      assert kept == rows;
    }
  }

  lemma RowNumbers(id: DraftId, e: Entry, now: int)
    ensures Numbers(VersionRows(id, e, now), id) == if e.versions == 0 then [1, e.version + 1] else [e.version + 1]
    ensures e.versions == 0 ==> Numbers(VersionRows(id, e, now)[..1], id) == [1]
  {
    var rows := VersionRows(id, e, now);
    assert rows[..0] == [];
    if e.versions == 0 {
      assert rows[..1] == [Version(id, now, 1)] && rows[..1][..0] == [];
      assert |rows| == 2 && Numbers(rows[..1], id) == [1];
      assert [] + [e.version + 1] == [e.version + 1];
    } else {
      assert |rows| == 1 && [] + [e.version + 1] == [e.version + 1];
    }
  }

  lemma {:induction false} UpToAt(n: nat)
    ensures |UpTo(n)| == n && forall i :: 0 <= i < n ==> UpTo(n)[i] == i + 1
  {
    if n > 0 {
      UpToAt(n - 1);
    }
  }

  /** Asking about a draft that is already closed puts it back on the list with its numbering lost. */
  lemma AskAfterCloseRestartsNumbers(s: Store, id: DraftId, date: Option<int>, now: int)
    requires Tracked(s, id) && id !in s.open && Numbers(s.log, id) != []
    ensures var t := Apply(Apply(s, Ask(id, date, now)), NewVersion(id, now)); !WithoutGaps(Numbers(t.log, id))
  {
    var mid := Apply(s, Ask(id, date, now));
    var rows := VersionRows(id, mid.open[id], now);
    RowNumbers(id, mid.open[id], now);
    NumbersAppend(s.log, rows, id);
    var all := Numbers(s.log + rows, id);
    UpToAt(|all|);
    assert all[|all| - 2] == 1;
  }

  // ----- the report -----

  datatype Report = Report(sent: nat, dropped: nat, expired: nat, reasons: multiset<string>)

  const NOTHING := Report(0, 0, 0, multiset{})

  function Plus(a: Report, b: Report): Report {
    Report(a.sent + b.sent, a.dropped + b.dropped, a.expired + b.expired, a.reasons + b.reasons)
  }

  function ReasonOf(row: Row): string
    requires row.Closing?
  {
    if row.reason.Some? && row.reason.value != "" then row.reason.value else NO_REASON
  }

  function CountRow(r: Report, row: Row, start: int, until: int): Report {
    if !(start <= row.at < until) || !row.Closing? then r
    else match row.result
      case Sent => r.(sent := r.sent + 1)
      case Expired => r.(expired := r.expired + 1)
      case Dropped => r.(dropped := r.dropped + 1, reasons := r.reasons + multiset{ReasonOf(row)})
  }

  function Counted(log: seq<Row>, start: int, until: int): Report {
    if log == [] then NOTHING else CountRow(Counted(log[..|log| - 1], start, until), log[|log| - 1], start, until)
  }

  /** What one line adds to the report of an interval that it falls into, or not. */
  lemma LineCounts(log: seq<Row>, row: Row, start: int, until: int)
    ensures var a, b := Counted(log, start, until), Counted(log + [row], start, until);
            var counts := row.Closing? && start <= row.at && row.at < until;
            && b.sent == a.sent + (if counts && row.result == Sent then 1 else 0)
            && b.dropped == a.dropped + (if counts && row.result == Dropped then 1 else 0)
            && b.expired == a.expired + (if counts && row.result == Expired then 1 else 0)
            && (counts && row.result == Dropped && row.reason.Some? && row.reason.value != "" ==>
                  b.reasons == a.reasons + multiset{row.reason.value})
            && (counts && row.result == Dropped && (row.reason.None? || row.reason.value == "") ==>
                  b.reasons == a.reasons + multiset{"ohne Grund"})
            && (!counts || row.result != Dropped ==> b.reasons == a.reasons)
  {
    assert (log + [row])[..|log|] == log;
  }

  /** Reports over adjacent intervals add up. */
  lemma {:induction false} ReportsAdd(log: seq<Row>, start: int, mid: int, until: int)
    requires start <= mid <= until
    ensures Counted(log, start, until) == Plus(Counted(log, start, mid), Counted(log, mid, until))
  {
    hide CountRow, Plus;
    PlusNothing(NOTHING);
    if log != [] {
      ReportsAdd(log[..|log| - 1], start, mid, until);
      var a, b := Counted(log[..|log| - 1], start, mid), Counted(log[..|log| - 1], mid, until);
      RowAdds(a, b, log[|log| - 1], start, mid, until);
    }
  }

  lemma PlusNothing(a: Report)
    ensures Plus(a, NOTHING) == a
  {
    AddNone(a.reasons, NOTHING.reasons);
  }

  lemma AddNone<T>(m: multiset<T>, none: multiset<T>)
    requires |none| == 0
    ensures m + none == m
  {
  }

  lemma RowAdds(a: Report, b: Report, row: Row, start: int, mid: int, until: int)
    requires start <= mid <= until
    ensures CountRow(Plus(a, b), row, start, until) == Plus(CountRow(a, row, start, mid), CountRow(b, row, mid, until))
  {
    if row.Closing? && row.result.Dropped? {
      var why := multiset{ReasonOf(row)};
      assert a.reasons + b.reasons + why == (a.reasons + why) + b.reasons == a.reasons + (b.reasons + why);
    }
  }

  /** Every discard in the interval has one reason, a missing one counted as its own value. */
  lemma {:induction false} ReasonsCoverDiscards(log: seq<Row>, start: int, until: int)
    ensures |Counted(log, start, until).reasons| == Counted(log, start, until).dropped
  {
    if log != [] {
      ReasonsCoverDiscards(log[..|log| - 1], start, until);
    }
  }

  /** How many drafts closed in the interval. */
  function ClosedIn(log: seq<Row>, start: int, until: int): set<DraftId> {
    set i | 0 <= i < |log| && log[i].Closing? && start <= log[i].at < until :: log[i].id
  }

  lemma ClosedInGrows(log: seq<Row>, start: int, until: int)
    requires log != [] && OneClosingEach(log)
    ensures var before, last := ClosedIn(log[..|log| - 1], start, until), log[|log| - 1];
            if last.Closing? && start <= last.at < until
            then last.id !in before && ClosedIn(log, start, until) == before + {last.id}
            else ClosedIn(log, start, until) == before
  {
    var init, last := log[..|log| - 1], log[|log| - 1];
    assert forall i :: 0 <= i < |init| ==> init[i] == log[i];
    var before := ClosedIn(init, start, until);
    forall id ensures id in ClosedIn(log, start, until) <==>
                      id in before || (last.Closing? && start <= last.at < until && id == last.id)
    {
      if id in before {
        var i :| 0 <= i < |init| && init[i].Closing? && start <= init[i].at < until && init[i].id == id;
        assert log[i] == init[i];
      }
      if last.Closing? && start <= last.at < until && id == last.id {
        assert log[|log| - 1] == last;
      }
    }
  }

  /** With one closing line each, the report counts drafts, not lines. */
  lemma {:induction false} ReportCountsDrafts(log: seq<Row>, start: int, until: int)
    requires OneClosingEach(log)
    ensures var r := Counted(log, start, until); r.sent + r.dropped + r.expired == |ClosedIn(log, start, until)|
  {
    if log != [] {
      ReportCountsDrafts(log[..|log| - 1], start, until);
      ClosedInGrows(log, start, until);
    } else {
      assert ClosedIn(log, start, until) == {};
    }
  }

  lemma OneMoreClosed(log: seq<Row>, row: Row)
    requires row.Closing?
    ensures forall id :: Closed(AppendOnce(log, row), id) <==> Closed(log, id) || id == row.id
  {
    var more := log + [row];
    assert more[|log|] == row;
    forall id | Closed(log, id) ensures Closed(more, id) {
      ClosedExtends(log, more, id);
    }
  }

  // ----- the registry as the program holds it -----

  class DecisionRegistry {
    var open: map<DraftId, Entry>
    var log: seq<Row>

    ghost function Contents(): Store
      reads this
    {
      Store(open, log)
    }

    constructor ()
      ensures Contents() == EMPTY
    {
      open, log := map[], [];
    }

    method Append(row: Row) returns (added: bool)
      modifies this`log
      ensures log == AppendOnce(old(log), row) && (added <==> !Closed(old(log), row.id))
    {
      var i := 0;
      while i < |log|
        invariant 0 <= i <= |log|
        invariant forall j :: 0 <= j < i ==> !(log[j].Closing? && log[j].id == row.id)
      {
        if log[i].Closing? && log[i].id == row.id {
          return false;
        }
        i := i + 1;
      }
      log := log + [row];
      added := true;
    }

    method Register(id: DraftId, now: int)
      modifies this
      ensures Contents() == Apply(old(Contents()), Op.Register(id, now))
    {
      if id !in open {
        open := open[id := Entry(Some(now), None, None, None, 1, 0)];
      }
    }

    method Close(id: DraftId, result: Result, reason: Option<string>, now: int) returns (added: bool)
      modifies this
      ensures Contents() == Apply(old(Contents()), Op.Close(id, result, reason, now))
      ensures added <==> !Closed(old(log), id)
    {
      open := open - {id};
      added := Append(Closing(id, now, result, reason));
    }

    method NoteFeedback(id: DraftId, now: int) returns (entry: Option<Entry>)
      modifies this
      ensures Contents() == Apply(old(Contents()), Op.Feedback(id, now))
      ensures entry == if id in open then Some(open[id]) else None
    {
      if id !in open {
        return None;
      }
      open := open[id := open[id].(feedbackAt := Some(now))];
      entry := Some(open[id]);
    }

    method RecordVersion(id: DraftId, now: int) returns (number: Option<nat>)
      modifies this
      ensures Contents() == Apply(old(Contents()), Op.NewVersion(id, now))
      ensures number == if id in old(open) then Some(old(open)[id].version + 1) else None
    {
      if id !in open {
        return None;
      }
      var e := open[id];
      var rows: seq<Row> := [];
      if e.versions == 0 {
        rows := rows + [Version(id, now, 1)];
      }
      rows := rows + [Version(id, now, e.version + 1)];
      open := open[id := e.(version := e.version + 1, versions := e.versions + 1)];
      log := log + rows;
      number := Some(e.version + 1);
    }

    method MarkAsked(id: DraftId, date: Option<int>, now: int)
      modifies this
      ensures Contents() == Apply(old(Contents()), Op.Ask(id, date, now))
    {
      var e := if id in open then open[id] else FromMessage(date);
      open := open[id := e.(askedAt := Some(now))];
    }

    /** Closes what the clocks have decided; returns the drafts that got their line now. */
    method CloseDue(order: seq<DraftId>, now: int) returns (closed: seq<DraftId>)
      modifies this
      ensures Contents() == Apply(old(Contents()), Op.Sweep(order, now))
      ensures forall id :: id in closed <==>
                id in order && id in old(open) && Overdue(old(open)[id], now).Some? && !Closed(old(log), id)
      ensures forall id :: id in open <==>
                id in old(open) && !(id in order && (LeftWithoutReason(old(open)[id], now) || LeftUnanswered(old(open)[id], now)))
      ensures forall id :: id in open ==> open[id] == old(open)[id]
      ensures old(log) <= log && forall i :: |old(log)| <= i < |log| ==>
                log[i].id in order && log[i].id in old(open) && SweptLine(log[i], old(open)[log[i].id], now)
      ensures forall id :: id in old(open) && id !in open ==> Closed(log, id)
    {
      hide Closed, AppendOnce, Overdue, LeftWithoutReason, LeftUnanswered, SweptLine;
      closed := [];
      ghost var before, whole := Contents(), SweepAll(Contents(), order, now);
      var i := 0;
      while i < |order|
        invariant 0 <= i <= |order|
        invariant whole == SweepAll(Contents(), order[i..], now)
        invariant forall id :: id in open ==> id in old(open) && open[id] == old(open)[id]
        invariant forall id :: id in old(open) && id !in open ==> id in order[..i] && Overdue(old(open)[id], now).Some?
        invariant forall id :: id in order[..i] && id in open ==> Overdue(open[id], now).None?
        invariant forall id :: id in open ==> (Closed(log, id) <==> Closed(old(log), id))
        invariant forall id :: id in closed <==> id in old(open) && id !in open && !Closed(old(log), id)
      {
        var tid := order[i];
        assert order[i..][1..] == order[i + 1..] && order[i..][0] == tid;
        if tid in open {
          var verdict := Overdue(open[tid], now);
          if verdict.Some? {
            var row := Closing(tid, now, verdict.value.0, verdict.value.1);
            OneMoreClosed(log, row);
            open := open - {tid};
            var added := Append(row);
            if added {
              closed := closed + [tid];
            }
          }
        }
        i := i + 1;
      }
      SweepMeans(before, order, now);
    }

    method Summary(start: int, until: int) returns (r: Report)
      ensures r == Counted(log, start, until)
    {
      r := NOTHING;
      var i := 0;
      while i < |log|
        invariant 0 <= i <= |log| && r == Counted(log[..i], start, until)
      {
        assert log[..i + 1][..i] == log[..i];
        r := CountRow(r, log[i], start, until);
        i := i + 1;
      }
      assert log[..i] == log;
    }
  }
}
