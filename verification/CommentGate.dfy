/**
 The bookkeeping of agents/comment_gate.py: the run's allowance, the comments per UTC day,
 and the bounded counters of refused drafts per comment.
 */
module CommentGate {
  import opened Common

  const DAILY_MAX := 6
  const MAX_PER_RUN := 2
  const PROBE_MAX := 3
  const GATE_MAX_ATTEMPTS := 3
  const MAX_TRACKED_ATTEMPTS := 200

  type Id = string
  type Day = int
  type Days = map<Day, nat>

  // ----- allowance -----

  datatype Mode = Unreadable | Blocked | Probe | Fine

  function At(days: Days, day: Day): nat {
    if day in days then days[day] else 0
  }

  function RunAllowance(mode: Mode, days: Days, day: Day): (room: nat)
    ensures room <= 2
    ensures room > 0 ==> At(days, day) + room <= 6 && mode != Unreadable && mode != Blocked
    ensures mode == Probe && room > 0 ==> At(days, day) + room <= 3
    ensures room == 0 <==> mode == Unreadable || mode == Blocked || At(days, day) >= (if mode == Probe then 3 else 6)
  {
    if mode == Unreadable || mode == Blocked then 0
    else
      var cap := if mode == Probe then PROBE_MAX else DAILY_MAX;
      var left := if cap > At(days, day) then cap - At(days, day) else 0;
      if left < MAX_PER_RUN then left else MAX_PER_RUN
  }

  function CountComment(days: Days, day: Day): Days {
    var more := days[day := At(days, day) + 1];
    map k | k in more && k >= day :: more[k]
  }

  // ----- attempts -----

  /** One counter; the list keeps the order in which comments were first refused. */
  datatype Try = Try(id: Id, count: nat)
  type Tries = seq<Try>

  function Count(tries: Tries, id: Id): nat {
    if tries == [] then 0
    else if tries[0].id == id then tries[0].count
    else Count(tries[1..], id)
  }

  function Bump(tries: Tries, id: Id): Tries {
    if tries == [] then [Try(id, 1)]
    else if tries[0].id == id then [Try(id, tries[0].count + 1)] + tries[1..]
    else [tries[0]] + Bump(tries[1..], id)
  }

  /** How many of the oldest counters are given up for a new one. */
  function Surplus(tries: Tries): nat {
    if |tries| > MAX_TRACKED_ATTEMPTS then |tries| - MAX_TRACKED_ATTEMPTS else 0
  }

  function NoteAttempt(tries: Tries, id: Id): Tries {
    Bump(tries, id)[Surplus(Bump(tries, id))..]
  }

  function Others(id: Id): Try -> bool {
    (t: Try) => t.id != id
  }

  function ClearAttempt(tries: Tries, id: Id): Tries {
    Filter(tries, Others(id))
  }

  predicate OnePerId(tries: Tries) {
    forall i, j :: 0 <= i < j < |tries| ==> tries[i].id != tries[j].id
  }

  /** What holds of the counters between runs. */
  predicate Fits(tries: Tries) {
    OnePerId(tries) && |tries| <= 200
    && forall i :: 0 <= i < |tries| ==> 1 <= tries[i].count < 3
  }

  predicate Tracked(tries: Tries, id: Id) {
    exists i :: 0 <= i < |tries| && tries[i].id == id
  }

  lemma {:induction false} CountAt(tries: Tries, i: nat)
    requires OnePerId(tries) && i < |tries|
    ensures Count(tries, tries[i].id) == tries[i].count
  {
    if i > 0 {
      assert tries[0].id != tries[i].id;
      CountAt(tries[1..], i - 1);
    }
  }

  lemma {:induction false} CountAbsent(tries: Tries, id: Id)
    requires !Tracked(tries, id)
    ensures Count(tries, id) == 0
  {
    if tries != [] {
      assert tries[0].id != id;
      forall i | 0 <= i < |tries[1..]| ensures tries[1..][i].id != id {
        assert tries[1..][i] == tries[i + 1];
      }
      CountAbsent(tries[1..], id);
    }
  }

  lemma {:induction false} BumpAbsent(tries: Tries, id: Id)
    requires !Tracked(tries, id)
    ensures Bump(tries, id) == tries + [Try(id, 1)]
  {
    if tries != [] {
      assert tries[0].id != id;
      forall i | 0 <= i < |tries[1..]| ensures tries[1..][i].id != id {
        assert tries[1..][i] == tries[i + 1];
      }
      BumpAbsent(tries[1..], id);
    }
  }

  lemma {:induction false} BumpPresent(tries: Tries, i: nat)
    requires OnePerId(tries) && i < |tries|
    ensures Bump(tries, tries[i].id) == tries[i := Try(tries[i].id, tries[i].count + 1)]
  {
    var id := tries[i].id;
    var up := Try(id, tries[i].count + 1);
    if i == 0 {
      assert [up] + tries[1..] == tries[0 := up];
    } else {
      var rest := tries[1..];
      assert tries[0].id != id && rest[i - 1] == tries[i];
      BumpPresent(rest, i - 1);
      assert [tries[0]] + rest[i - 1 := up] == tries[i := up];
    }
  }

  /**
   Counting a refusal: the comment's own counter grows by one and is never the one given up,
   and a full list gives up exactly its oldest counter for a new comment.
   */
  lemma NoteAttemptCounts(tries: Tries, id: Id)
    requires OnePerId(tries) && |tries| <= MAX_TRACKED_ATTEMPTS
    ensures var after := NoteAttempt(tries, id);
            && OnePerId(after) && |after| <= MAX_TRACKED_ATTEMPTS
            && Count(after, id) == Count(tries, id) + 1
            && Surplus(Bump(tries, id)) == (if !Tracked(tries, id) && |tries| == MAX_TRACKED_ATTEMPTS then 1 else 0)
            && (forall x ::
                  x != id ==> Count(after, x) == if Surplus(Bump(tries, id)) == 1 && x == tries[0].id then 0 else Count(tries, x))
  {
    var after := NoteAttempt(tries, id);
    if Tracked(tries, id) {
      var i :| 0 <= i < |tries| && tries[i].id == id;
      BumpPresent(tries, i);
      assert after == tries[i := Try(id, tries[i].count + 1)];
      CountAt(tries, i);
      CountAt(after, i);
      forall x | x != id ensures Count(after, x) == Count(tries, x) {
        CountUpdated(tries, i, tries[i].count + 1, x);
      }
    } else {
      BumpAbsent(tries, id);
      CountAbsent(tries, id);
      var more := tries + [Try(id, 1)];
      assert OnePerId(more);
      assert after == more[Surplus(more)..];
      CountAt(after, |after| - 1);
      forall x | x != id
        ensures Count(after, x) == if Surplus(more) == 1 && x == tries[0].id then 0 else Count(tries, x)
      {
        CountDropFirst(more, Surplus(more), x);
        CountAppended(tries, Try(id, 1), x);
      }
    }
  }

  lemma {:induction false} CountUpdated(tries: Tries, i: nat, n: nat, x: Id)
    requires OnePerId(tries) && i < |tries| && x != tries[i].id
    ensures Count(tries[i := Try(tries[i].id, n)], x) == Count(tries, x)
  {
    var after := tries[i := Try(tries[i].id, n)];
    if i > 0 {
      CountUpdated(tries[1..], i - 1, n, x);
      assert after[1..] == tries[1..][i - 1 := Try(tries[i].id, n)];
    } else {
      assert after[1..] == tries[1..];
    }
  }

  lemma {:induction false} CountAppended(tries: Tries, t: Try, x: Id)
    requires x != t.id
    ensures Count(tries + [t], x) == Count(tries, x)
  {
    if tries == [] {
      assert tries + [t] == [t];
    } else {
      assert (tries + [t])[1..] == tries[1..] + [t];
      CountAppended(tries[1..], t, x);
    }
  }

  lemma CountDropFirst(tries: Tries, n: nat, x: Id)
    requires OnePerId(tries) && n <= 1 && n <= |tries|
    ensures Count(tries[n..], x) == if n == 1 && x == tries[0].id then 0 else Count(tries, x)
  {
    if n == 0 {
      assert tries[n..] == tries;
    } else if x == tries[0].id {
      forall i | 0 <= i < |tries[1..]| ensures tries[1..][i].id != x {
        assert tries[1..][i] == tries[i + 1];
      }
      CountAbsent(tries[1..], x);
    }
  }

  /** Clearing forgets one counter and touches no other. */
  lemma {:induction false} ClearAttemptCounts(tries: Tries, id: Id)
    requires OnePerId(tries)
    ensures var after := ClearAttempt(tries, id);
            && OnePerId(after) && |after| <= |tries|
            && (forall x :: Count(after, x) == if x == id then 0 else Count(tries, x))
            && (forall t :: t in after <==> t in tries && t.id != id)
  {
    if tries != [] {
      ClearAttemptCounts(tries[1..], id);
      var rest := ClearAttempt(tries[1..], id);
      assert forall t :: t in rest ==> t in tries[1..];
      assert tries == [tries[0]] + tries[1..];
      if tries[0].id != id {
        assert ClearAttempt(tries, id) == [tries[0]] + rest;
        assert ([tries[0]] + rest)[1..] == rest;
        forall j | 0 <= j < |rest| ensures rest[j].id != tries[0].id {
          assert rest[j] in tries[1..];
        }
      } else {
        assert ClearAttempt(tries, id) == rest;
        forall x ensures Count(rest, x) == if x == id then 0 else Count(tries, x) {
        }
      }
    }
  }

  lemma NotedMembers(tries: Tries, id: Id)
    requires OnePerId(tries)
    ensures forall t :: t in NoteAttempt(tries, id) ==> t in tries || t == Try(id, Count(tries, id) + 1)
    ensures Tracked(tries, id) ==> exists i :: 0 <= i < |tries| && tries[i] == Try(id, Count(tries, id))
  {
    if Tracked(tries, id) {
      var i :| 0 <= i < |tries| && tries[i].id == id;
      BumpPresent(tries, i);
      CountAt(tries, i);
    } else {
      BumpAbsent(tries, id);
      CountAbsent(tries, id);
    }
  }

  /** A refusal that leaves the comment open, or the end of its counter, keeps the counters in bounds. */
  lemma AttemptsStayInBounds(tries: Tries, id: Id)
    requires Fits(tries)
    ensures var noted := NoteAttempt(tries, id);
            && Count(noted, id) <= GATE_MAX_ATTEMPTS
            && (Count(noted, id) < GATE_MAX_ATTEMPTS ==> Fits(noted))
            && Fits(ClearAttempt(noted, id)) && Fits(ClearAttempt(tries, id))
  {
    hide NoteAttempt, ClearAttempt, Count, Bump;
    var noted := NoteAttempt(tries, id);
    NoteAttemptCounts(tries, id);
    NotedMembers(tries, id);
    ClearAttemptCounts(noted, id);
    ClearAttemptCounts(tries, id);
    assert Count(tries, id) < GATE_MAX_ATTEMPTS by {
      if !Tracked(tries, id) {
        CountAbsent(tries, id);
      }
    }
    InBounds(tries, noted);
    InBounds(noted, ClearAttempt(noted, id));
    InBounds(tries, ClearAttempt(tries, id));
  }

  predicate Small(t: Try) {
    1 <= t.count < GATE_MAX_ATTEMPTS
  }

  lemma InBounds(from: Tries, to: Tries)
    requires OnePerId(to) && |to| <= MAX_TRACKED_ATTEMPTS
    ensures (forall t :: t in to ==> Small(t)) ==> Fits(to)
    ensures Fits(from) ==> forall t :: t in from ==> Small(t)
  {
    if forall t :: t in to ==> Small(t) {
      forall i | 0 <= i < |to| ensures 1 <= to[i].count < GATE_MAX_ATTEMPTS {
        assert Small(to[i]);
      }
    }
  }

  // ----- the program -----

  class Gate {
    var tries: Tries
    var days: Days

    constructor (tries: Tries, days: Days)
      ensures this.tries == tries && this.days == days
    {
      this.tries, this.days := tries, days;
    }

    /** Counts one refused draft and returns the total; the counter just written is always there. */
    method Note(id: Id) returns (n: nat)
      requires OnePerId(tries) && |tries| <= MAX_TRACKED_ATTEMPTS
      modifies this`tries
      ensures tries == NoteAttempt(old(tries), id) && n == Count(tries, id) == Count(old(tries), id) + 1
    {
      NoteAttemptCounts(tries, id);
      tries := Bump(tries, id);
      if |tries| > MAX_TRACKED_ATTEMPTS {
        tries := tries[|tries| - MAX_TRACKED_ATTEMPTS..];
      }
      n := Count(tries, id);
    }

    method Clear(id: Id)
      modifies this`tries
      ensures tries == ClearAttempt(old(tries), id)
    {
      tries := Filter(tries, Others(id));
    }

    method CountOne(day: Day)
      modifies this`days
      ensures days == CountComment(old(days), day)
    {
      var n := if day in days then days[day] else 0;
      days := days[day := n + 1];
      days := map k | k in days && k >= day :: days[k];
    }
  }
}
