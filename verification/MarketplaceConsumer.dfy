/**
 The consumer of agents/mp_subscription_consumer.py as a protocol: the queue may redeliver
 anything it still holds, in any order and any number of times, and the process may die
 between any two steps. One transaction commits the ledger row and the subscriber rows.
 */
module MarketplaceConsumer {
  import opened Common
  import opened Marketplace
  import opened MarketplaceOrder

  const BATCH_SIZE := 10

  datatype Db = Db(ledger: map<string, nat>, rows: seq<Subscriber>)  // event id -> rows it matched

  function MatchCount(rows: seq<Subscriber>, e: Event): nat {
    if rows == [] then 0 else (if Matches(Stamp(rows[0], e), e) then 1 else 0) + MatchCount(rows[1..], e)
  }

  function ApplyAll(rows: seq<Subscriber>, e: Event): seq<Subscriber> {
    seq(|rows|, i requires 0 <= i < |rows| => ApplyRow(rows[i], e))
  }

  /** How handling ends: may be deleted, must stay on the queue, or the process dies and nothing is kept. */
  datatype Ending = MayDelete | Keep | Dies

  function Commit(db: Db, e: Event): Db {
    if e.id in db.ledger then db
    else Db(db.ledger[e.id := MatchCount(db.rows, e)], ApplyAll(db.rows, e))
  }

  /**
   An envelope that matches no known shape reaches the log line naming a label that was never
   assigned, so the transaction is rolled back and the error ends the process.
   */
  function Handling(db: Db, m: Message): Ending {
    match ParseEnvelope(m)
    case Malformed => Keep
    case Raises => Dies
    case Parsed(e) => if e.Unknown? && e.id !in db.ledger then Dies else MayDelete
  }

  function Handled(db: Db, m: Message): Db {
    if Handling(db, m) == MayDelete then Commit(db, ParseEnvelope(m).event) else db
  }

  // ----- the program -----

  class Consumer {
    var ledger: map<string, nat>
    var rows: seq<Subscriber>
    var queue: set<Message>

    ghost function Contents(): Db
      reads this
    {
      Db(ledger, rows)
    }

    constructor (rows: seq<Subscriber>)
      ensures Contents() == Db(map[], rows) && queue == {}
    {
      ledger, this.rows, queue := map[], rows, {};
    }

    method ApplyEvent(e: Event) returns (matched: nat)
      modifies this`rows
      ensures rows == ApplyAll(old(rows), e) && matched == MatchCount(old(rows), e)
    {
      hide Matches, Stamp, ApplyRow;
      var before := rows;
      matched := 0;
      var i := 0;
      while i < |before|
        invariant 0 <= i <= |before| == |rows|
        invariant matched + MatchCount(before[i..], e) == MatchCount(before, e)
        invariant forall j :: 0 <= j < |rows| ==> rows[j] == if j < i then ApplyRow(before[j], e) else before[j]
      {
        if Matches(Stamp(before[i], e), e) {
          matched := matched + 1;
        }
        rows := rows[i := ApplyRow(before[i], e)];
        i := i + 1;
      }
    }

    method HandleMessage(m: Message) returns (ending: Ending)
      modifies this`ledger, this`rows
      ensures ending == Handling(old(Contents()), m)
      ensures Contents() == Handled(old(Contents()), m)
    {
      var parsed := ParseEnvelope(m);
      if parsed.Malformed? {
        return Keep;
      }
      if parsed.Raises? {
        return Dies;
      }
      var e := parsed.event;
      if e.id in ledger {
        return MayDelete;
      }
      if e.Unknown? {
        return Dies;
      }
      var matched := ApplyEvent(e);
      ledger := ledger[e.id := matched];
      ending := MayDelete;
    }

    /** One poll over the received messages; stops where the process dies. Returns how many were handled. */
    method PollOnce(batch: seq<Message>) returns (handled: nat)
      requires forall m :: m in batch ==> m in queue
      modifies this
      ensures handled <= |batch|
      ensures Contents() == HandledAll(old(Contents()), batch[..handled])
      ensures queue == old(queue) - Deletable(old(Contents()), batch[..handled])
      ensures handled < |batch| ==> Handling(Contents(), batch[handled]) == Dies
    {
      hide Handled, Handling;
      handled := 0;
      while handled < |batch|
        invariant 0 <= handled <= |batch|
        invariant Contents() == HandledAll(old(Contents()), batch[..handled])
        invariant queue == old(queue) - Deletable(old(Contents()), batch[..handled])
      {
        var m := batch[handled];
        ghost var before := Contents();
        assert batch[..handled + 1][..handled] == batch[..handled];
        var ending := HandleMessage(m);
        if ending == Dies {
          DyingKeeps(before, m);
          return;
        }
        if ending == MayDelete {
          queue := queue - {m};
        }
        handled := handled + 1;
      }
    }
  }

  lemma DyingKeeps(db: Db, m: Message)
    requires Handling(db, m) == Dies
    ensures Handled(db, m) == db
  {
  }

  function HandledAll(db: Db, batch: seq<Message>): Db {
    if batch == [] then db else Handled(HandledAll(db, batch[..|batch| - 1]), batch[|batch| - 1])
  }

  function Deletable(db: Db, batch: seq<Message>): set<Message> {
    if batch == [] then {}
    else
      var init, last := batch[..|batch| - 1], batch[|batch| - 1];
      Deletable(db, init) + (if Handling(HandledAll(db, init), last) == MayDelete then {last} else {})
  }

  // ----- the protocol -----

  datatype Phase = Idle | Holding(batch: seq<Message>) | Committed(batch: seq<Message>)

  /** `trace` lists the events in the order of their commits, `deleted` what left the queue. */
  datatype System = System(queue: set<Message>, phase: Phase, db: Db, trace: seq<Event>, deleted: set<Message>)

  ghost predicate Start(s: System, rows: seq<Subscriber>) {
    s == System({}, Idle, Db(map[], rows), [], {})
  }

  datatype Move = Arrive(m: Message) | Receive(batch: seq<Message>) | Handle | Delete | Crash

  predicate Can(s: System, move: Move) {
    match move
    case Arrive(_) => true
    case Receive(batch) => s.phase.Idle? && |batch| <= BATCH_SIZE && forall m :: m in batch ==> m in s.queue
    case Handle => s.phase.Holding? && s.phase.batch != []
    case Delete => s.phase.Committed? && s.phase.batch != []
    case Crash => true
  }

  function Do(s: System, move: Move): System
    requires Can(s, move)
  {
    match move
    case Arrive(m) => s.(queue := s.queue + {m})
    case Receive(batch) => s.(phase := Holding(batch))
    case Handle =>
      var m := s.phase.batch[0];
      var ending := Handling(s.db, m);
      if ending == Dies then s.(phase := Idle)
      else if ending == Keep then s.(phase := Holding(s.phase.batch[1..]))
      else s.(phase := Committed(s.phase.batch), db := Handled(s.db, m),
              trace := if ParseEnvelope(m).event.id in s.db.ledger then s.trace else s.trace + [ParseEnvelope(m).event])
    case Delete =>
      s.(queue := s.queue - {s.phase.batch[0]}, deleted := s.deleted + {s.phase.batch[0]},
         phase := Holding(s.phase.batch[1..]))
    case Crash => s.(phase := Idle)
  }

  ghost predicate Legal(s: System, moves: seq<Move>)
    decreases |moves|
  {
    moves == [] || (Can(s, moves[0]) && Legal(Do(s, moves[0]), moves[1..]))
  }

  function Run(s: System, moves: seq<Move>): System
    requires Legal(s, moves)
    decreases |moves|
  {
    if moves == [] then s else Run(Do(s, moves[0]), moves[1..])
  }

  ghost predicate Recorded(s: System, m: Message) {
    ParseEnvelope(m).Parsed? && ParseEnvelope(m).event.id in s.db.ledger
  }

  ghost predicate Once(trace: seq<Event>) {
    forall i, j :: 0 <= i < j < |trace| ==> trace[i].id != trace[j].id
  }

  function Ids(trace: seq<Event>): set<string> {
    set i | 0 <= i < |trace| :: trace[i].id
  }

  /** Each committed event has a known shape, a message carries it, and no id comes twice. */
  ghost predicate Proper(trace: seq<Event>) {
    Once(trace) && forall i :: 0 <= i < |trace| ==> !trace[i].Unknown? && Sendable(trace[i])
  }

  /** Each row is what the committed events make of it. */
  ghost predicate Follow(now: seq<Subscriber>, rows: seq<Subscriber>, trace: seq<Event>) {
    |now| == |rows| && forall i :: 0 <= i < |rows| ==> now[i] == FoldRow(rows[i], trace)
  }

  ghost predicate Backed(s: System) {
    && (forall m :: m in s.deleted ==> Recorded(s, m))
    && (s.phase.Committed? ==> s.phase.batch != [] && Recorded(s, s.phase.batch[0]))
  }

  ghost predicate Consistent(s: System, rows: seq<Subscriber>) {
    Backed(s) && Proper(s.trace) && s.db.ledger.Keys == Ids(s.trace) && Follow(s.db.rows, rows, s.trace)
  }

  /** Some message carries the event. */
  ghost predicate Sendable(e: Event) {
    exists m :: ParseEnvelope(m) == Parsed(e)
  }

  lemma CommittedIsKnown(db: Db, m: Message)
    requires Handling(db, m) == MayDelete && ParseEnvelope(m).event.id !in db.ledger
    ensures ParseEnvelope(m).Parsed? && !ParseEnvelope(m).event.Unknown?
    ensures Handled(db, m) == Commit(db, ParseEnvelope(m).event)
  {
    hide ParseEnvelope, Commit;
  }

  lemma IdsGrow(trace: seq<Event>, e: Event)
    ensures Ids(trace + [e]) == Ids(trace) + {e.id}
  {
    var more := trace + [e];
    forall id ensures id in Ids(more) <==> id in Ids(trace) || id == e.id {
      if id in Ids(trace) {
        var i :| 0 <= i < |trace| && trace[i].id == id;
        assert more[i].id == id;
      }
      if id == e.id {
        assert more[|trace|].id == id;
      }
    }
  }

  lemma ProperGrows(trace: seq<Event>, e: Event)
    requires Proper(trace) && e.id !in Ids(trace) && !e.Unknown? && Sendable(e)
    ensures Proper(trace + [e])
  {
    forall i | 0 <= i < |trace| ensures trace[i].id != e.id {
      assert trace[i].id in Ids(trace);
    }
  }

  lemma RowsFollow(now: seq<Subscriber>, rows: seq<Subscriber>, trace: seq<Event>, e: Event)
    requires Follow(now, rows, trace)
    ensures Follow(ApplyAll(now, e), rows, trace + [e])
  {
    hide ApplyRow;
    assert (trace + [e])[..|trace|] == trace;
  }

  lemma CommitKeeps(s: System, rows: seq<Subscriber>)
    requires Consistent(s, rows) && Can(s, Handle) && Handling(s.db, s.phase.batch[0]) == MayDelete
    requires ParseEnvelope(s.phase.batch[0]).event.id !in s.db.ledger
    ensures Consistent(Do(s, Handle), rows)
  {
    hide ParseEnvelope, ApplyAll, MatchCount, Handling, Handled, Proper, Follow, Ids;
    var m := s.phase.batch[0];
    CommittedIsKnown(s.db, m);
    var e := ParseEnvelope(m).event;
    assert Sendable(e);
    IdsGrow(s.trace, e);
    ProperGrows(s.trace, e);
    RowsFollow(s.db.rows, rows, s.trace, e);
  }

  lemma MoveKeeps(s: System, rows: seq<Subscriber>, move: Move)
    requires Consistent(s, rows) && Can(s, move)
    ensures Consistent(Do(s, move), rows)
  {
    if move.Handle? && Handling(s.db, s.phase.batch[0]) == MayDelete {
      if ParseEnvelope(s.phase.batch[0]).event.id !in s.db.ledger {
        CommitKeeps(s, rows);
      }
    }
  }

  lemma {:induction false} RunKeeps(s: System, rows: seq<Subscriber>, moves: seq<Move>)
    requires Consistent(s, rows) && Legal(s, moves)
    ensures Consistent(Run(s, moves), rows)
    decreases |moves|
  {
    if moves != [] {
      MoveKeeps(s, rows, moves[0]);
      RunKeeps(Do(s, moves[0]), rows, moves[1..]);
    }
  }

  /**
   For every schedule of arrivals, redeliveries, reorderings and crashes: what was deleted is
   in the ledger, an event id takes effect once, no event of unknown shape is ever recorded,
   and each row is what the committed events make of it.
   */
  lemma ScheduleIsSafe(s: System, rows: seq<Subscriber>, moves: seq<Move>)
    requires Start(s, rows) && Legal(s, moves)
    ensures var t := Run(s, moves);
            && (forall m :: m in t.deleted ==> Recorded(t, m))
            && Once(t.trace)
            && t.db.ledger.Keys == Ids(t.trace)
            && (forall i :: 0 <= i < |t.trace| ==> !t.trace[i].Unknown?)
            && |t.db.rows| == |rows|
            && (forall i :: 0 <= i < |rows| ==> EndsAt(rows[i], Hits(rows[i], t.trace), t.db.rows[i]))
  {
    RunKeeps(s, rows, moves);
    var t := Run(s, moves);
    forall i | 0 <= i < |rows| ensures EndsAt(rows[i], Hits(rows[i], t.trace), t.db.rows[i]) {
      RowEndsAtGreatest(rows[i], t.trace);
    }
  }

  /** Two schedules that commit the same events leave every uncontested row the same. */
  lemma SchedulesConverge(s: System, rows: seq<Subscriber>, a: seq<Move>, b: seq<Move>, i: nat)
    requires Start(s, rows) && Legal(s, a) && Legal(s, b) && i < |rows|
    requires SameEvents(Run(s, a).trace, Run(s, b).trace) && !Contested(rows[i], Run(s, a).trace)
    ensures i < |Run(s, a).db.rows| && i < |Run(s, b).db.rows|
    ensures Run(s, a).db.rows[i] == Run(s, b).db.rows[i]
  {
    hide Contested;
    RunKeeps(s, rows, a);
    RunKeeps(s, rows, b);
    UncontestedConverges(rows[i], Run(s, a).trace, Run(s, b).trace);
  }

  /** What can be committed next: known events that messages carry, each id once and new. */
  ghost predicate Fresh(s: System, events: seq<Event>) {
    && Once(events)
    && forall i :: 0 <= i < |events| ==> !events[i].Unknown? && Sendable(events[i]) && events[i].id !in s.db.ledger
  }

  /** One message arrives, is received, handled and deleted: its event is committed. */
  lemma DeliverOne(s: System, e: Event) returns (moves: seq<Move>)
    requires s.phase.Idle? && Fresh(s, [e])
    ensures Legal(s, moves) && Run(s, moves).phase.Idle?
    ensures Run(s, moves).trace == s.trace + [e] && Run(s, moves).db.ledger.Keys == s.db.ledger.Keys + {e.id}
  {
    assert [e][0] == e;
    var m :| ParseEnvelope(m) == Parsed(e);
    hide ParseEnvelope, ApplyAll, MatchCount;
    moves := [Arrive(m), Receive([m]), Handle, Delete, Crash];
    var s1 := Do(s, Arrive(m));
    var s2 := Do(s1, Receive([m]));
    var s3 := Do(s2, Handle);
    var s4 := Do(s3, Delete);
    var s5 := Do(s4, Crash);
    assert moves[1..] == [Receive([m]), Handle, Delete, Crash] && moves[1..][1..] == [Handle, Delete, Crash];
    assert moves[1..][1..][1..] == [Delete, Crash] && moves[1..][1..][1..][1..] == [Crash];
    assert moves[1..][1..][1..][1..][1..] == [];
    assert Legal(s5, []) && Run(s5, []) == s5;
    assert Legal(s4, [Crash]) && Run(s4, [Crash]) == s5;
    assert Legal(s3, [Delete, Crash]) && Run(s3, [Delete, Crash]) == s5;
    assert Legal(s2, [Handle, Delete, Crash]) && Run(s2, [Handle, Delete, Crash]) == s5;
    assert Legal(s1, moves[1..]) && Run(s1, moves[1..]) == s5;
  }

  lemma {:induction false} RunAppend(s: System, a: seq<Move>, b: seq<Move>)
    requires Legal(s, a) && Legal(Run(s, a), b)
    ensures Legal(s, a + b) && Run(s, a + b) == Run(Run(s, a), b)
    decreases |a|
  {
    if a == [] {
      assert a + b == b;
    } else {
      assert (a + b)[0] == a[0] && (a + b)[1..] == a[1..] + b;
      RunAppend(Do(s, a[0]), a[1..], b);
    }
  }

  /** Any order of fresh events can be what a schedule commits. */
  lemma {:induction false} AnyOrderHappens(s: System, events: seq<Event>) returns (moves: seq<Move>)
    requires s.phase.Idle? && Fresh(s, events)
    ensures Legal(s, moves) && Run(s, moves).phase.Idle?
    ensures Run(s, moves).trace == s.trace + events
    decreases |events|
  {
    if events == [] {
      moves := [];
      assert s.trace + events == s.trace;
    } else {
      hide Run, Legal;
      assert [events[0]][0] == events[0];
      var first := DeliverOne(s, events[0]);
      var t := Run(s, first);
      forall i | 0 <= i < |events[1..]|
        ensures !events[1..][i].Unknown? && Sendable(events[1..][i]) && events[1..][i].id !in t.db.ledger
      {
        assert events[1..][i] == events[i + 1] && events[0].id != events[i + 1].id;
      }
      var rest := AnyOrderHappens(t, events[1..]);
      RunAppend(s, first, rest);
      moves := first + rest;
      assert (s.trace + [events[0]]) + events[1..] == s.trace + events;
    }
  }

  lemma OnceIsOrderFree(a: seq<Event>, b: seq<Event>)
    requires Once(a) && multiset(a) == multiset(b)
    ensures Once(b)
  {
    forall i, j | 0 <= i < j < |b| ensures b[i].id != b[j].id {
      assert b[i] in multiset(a) && b[j] in multiset(a);
      var k :| 0 <= k < |a| && a[k] == b[i];
      var l :| 0 <= l < |a| && a[l] == b[j];
      if k == l {
        assert Distinct(a);
        DistinctPermutation(a, b);
      }
    }
  }

  /** And a contested row is left different by two schedules that commit the same events. */
  lemma SchedulesDiverge(s: System, rows: seq<Subscriber>, moves: seq<Move>, i: nat) returns (a: seq<Move>, b: seq<Move>)
    requires Start(s, rows) && Legal(s, moves) && i < |rows| && Contested(rows[i], Run(s, moves).trace)
    ensures Legal(s, a) && Legal(s, b)
    ensures multiset(Run(s, a).trace) == multiset(Run(s, moves).trace) == multiset(Run(s, b).trace)
    ensures i < |Run(s, a).db.rows| && i < |Run(s, b).db.rows| && Run(s, a).db.rows[i] != Run(s, b).db.rows[i]
  {
    hide Contested;
    RunKeeps(s, rows, moves);
    var trace := Run(s, moves).trace;
    var x, y := ContestedDiverges(rows[i], trace);
    PermutedIsFresh(s, rows, trace, x);
    PermutedIsFresh(s, rows, trace, y);
    hide Run, Legal;
    a := AnyOrderHappens(s, x);
    b := AnyOrderHappens(s, y);
    assert s.trace + x == x && s.trace + y == y;
    RunKeeps(s, rows, a);
    RunKeeps(s, rows, b);
  }

  lemma PermutedIsFresh(s: System, rows: seq<Subscriber>, trace: seq<Event>, x: seq<Event>)
    requires Start(s, rows) && Once(trace) && multiset(x) == multiset(trace)
    requires forall i :: 0 <= i < |trace| ==> !trace[i].Unknown? && Sendable(trace[i])
    ensures Fresh(s, x)
  {
    OnceIsOrderFree(trace, x);
    forall i | 0 <= i < |x| ensures !x[i].Unknown? && Sendable(x[i]) {
      assert x[i] in multiset(trace);
      var k :| 0 <= k < |trace| && trace[k] == x[i];
    }
  }

  /**
   Which messages end the process instead of being stored: those of no known shape, and
   notifications whose payload is JSON but no object. They are never recorded, so they stay
   on the queue and end it again.
   */
  lemma WhatEndsTheProcess(db: Db, m: Message)
    ensures Handling(db, m) == Dies <==>
            m.body.Some? && m.body.value.Obj?
            && if IsSns(m.body.value) then m.inner.Some? && !m.inner.value.Obj?
               else !IsEventBridge(m.body.value) && !IsRaw(m.body.value) && m.sqsId !in db.ledger
    ensures Handling(db, m) == Dies ==> Handled(db, m) == db
  {
    hide Text;
  }

  /** Which messages stay on the queue: those that are no JSON object, and notifications whose payload is no JSON. */
  lemma WhatStays(db: Db, m: Message)
    ensures Handling(db, m) == Keep <==> m.body.None? || !m.body.value.Obj? || (IsSns(m.body.value) && m.inner.None?)
    ensures Handling(db, m) == Keep ==> Handled(db, m) == db
  {
    hide Text;
  }

  /** A poll takes off the queue exactly the messages of the batch that were handled to their end; their events stand in the ledger. */
  lemma {:induction false} DeletableMeans(db: Db, batch: seq<Message>, m: Message)
    ensures m in Deletable(db, batch) <==>
              exists k :: 0 <= k < |batch| && batch[k] == m && Handling(HandledAll(db, batch[..k]), m) == MayDelete
  {
    hide Handling, Handled;
    if batch != [] {
      var init, last := batch[..|batch| - 1], batch[|batch| - 1];
      DeletableMeans(db, init, m);
      if k :| 0 <= k < |init| && init[k] == m && Handling(HandledAll(db, init[..k]), m) == MayDelete {
        assert batch[k] == m && batch[..k] == init[..k];
      }
      if k :| 0 <= k < |batch| && batch[k] == m && Handling(HandledAll(db, batch[..k]), m) == MayDelete {
        if k < |init| {
          assert init[k] == m && init[..k] == batch[..k];
        }
      }
    }
  }

  /** What may be deleted is in the ledger. */
  lemma DeletedIsRecorded(db: Db, m: Message)
    requires Handling(db, m) == MayDelete
    ensures ParseEnvelope(m).Parsed? && ParseEnvelope(m).event.id in Handled(db, m).ledger
  {
    hide ParseEnvelope;
  }
}
