/**
 The paged notification read of agents/ambassador.py: the foreign threads that invite this
 account in, complete for the window or nothing at all.
 */
module Invitations {
  import opened Common

  const PAGE_CAP := 10

  type Id = string

  datatype Kind = Mention | CommentReply | OtherKind

  datatype Note = Note(created: Option<int>, kind: Kind, post: Option<Id>, comment: Option<Id>)

  /** What one request returns: nothing usable, or rows with a continuation. */
  datatype Reply = Unreadable | Page(rows: seq<Note>, hasMore: bool, cursor: bool)

  datatype Entry = Entry(mentioned: bool, targets: seq<Id>)

  /** The threads in the order they were first met. */
  datatype Found = Found(order: seq<Id>, entries: map<Id, Entry>)

  const NOTHING := Found([], map[])

  predicate InWindow(n: Note, cutoff: int) {
    n.created.Some? && n.created.value >= cutoff
  }

  predicate PastWindow(n: Note, cutoff: int) {
    n.created.Some? && n.created.value < cutoff
  }

  predicate Invites(n: Note, cutoff: int, own: set<Id>) {
    InWindow(n, cutoff) && n.kind != OtherKind && n.post.Some? && n.post.value !in own
  }

  /** The comment that names us, or the post when its body does. */
  function Target(n: Note): Id
    requires n.post.Some?
  {
    if n.comment.Some? then n.comment.value else n.post.value
  }

  function AddNote(f: Found, n: Note, cutoff: int, own: set<Id>): Found {
    if !Invites(n, cutoff, own) then f
    else
      var id := n.post.value;
      var e := if id in f.entries then f.entries[id] else Entry(false, []);
      var e' := if n.kind != Mention then e
                else Entry(true, if Target(n) in e.targets then e.targets else e.targets + [Target(n)]);
      Found(if id in f.entries then f.order else f.order + [id], f.entries[id := e'])
  }

  function AddAll(rows: seq<Note>, cutoff: int, own: set<Id>): Found {
    if rows == [] then NOTHING
    else AddNote(AddAll(rows[..|rows| - 1], cutoff, own), rows[|rows| - 1], cutoff, own)
  }

  /** The rows of the first `n` replies. */
  function RowsOf(replies: nat -> Reply, n: nat): seq<Note> {
    if n == 0 then []
    else RowsOf(replies, n - 1) + (if replies(n - 1).Page? then replies(n - 1).rows else [])
  }

  predicate ReachesEnd(p: Reply, cutoff: int) {
    p.Page? && ((exists i :: 0 <= i < |p.rows| && PastWindow(p.rows[i], cutoff)) || !p.hasMore)
  }

  predicate GoesOn(p: Reply, cutoff: int) {
    p.Page? && !ReachesEnd(p, cutoff) && p.cursor
  }

  /** The read ends well after `n` pages: each page before the last leads on, and the last reaches the end. */
  ghost predicate CompletesAfter(replies: nat -> Reply, cutoff: int, n: nat) {
    n > 0 && ReachesEnd(replies(n - 1), cutoff) && forall k :: 0 <= k < n - 1 ==> GoesOn(replies(k), cutoff)
  }

  /** One page, read to its last row; `seen` stands for the rows of the pages before. */
  method ReadPage(rows: seq<Note>, before: Found, cutoff: int, own: set<Id>, ghost seen: seq<Note>)
    returns (found: Found, past: bool)
    requires before == AddAll(seen, cutoff, own)
    ensures found == AddAll(seen + rows, cutoff, own)
    ensures past <==> exists i :: 0 <= i < |rows| && PastWindow(rows[i], cutoff)
  {
    hide AddNote;
    found, past := before, false;
    var i := 0;
    assert seen + rows[..i] == seen;
    while i < |rows|
      invariant 0 <= i <= |rows|
      invariant found == AddAll(seen + rows[..i], cutoff, own)
      invariant past <==> exists j :: 0 <= j < i && PastWindow(rows[j], cutoff)
    {
      var n := rows[i];
      OutsideAddsNothing(found, n, cutoff, own);
      if PastWindow(n, cutoff) {
        past := true;
      } else if InWindow(n, cutoff) {
        found := AddNote(found, n, cutoff, own);
      }
      assert (seen + rows[..i + 1])[..|seen| + i] == seen + rows[..i];
      i := i + 1;
    }
    assert rows[..i] == rows;
  }

  lemma OutsideAddsNothing(f: Found, n: Note, cutoff: int, own: set<Id>)
    ensures !InWindow(n, cutoff) ==> AddNote(f, n, cutoff, own) == f
  {
  }

  method InvitedThreads(replies: nat -> Reply, cutoff: int, own: set<Id>) returns (result: Option<Found>, ghost pages: nat)
    ensures pages <= 10
    ensures result.Some? ==> CompletesAfter(replies, cutoff, pages) && result.value == AddAll(RowsOf(replies, pages), cutoff, own)
    ensures result.None? ==> forall n :: 0 < n <= 10 ==> !CompletesAfter(replies, cutoff, n)
  {
    hide PastWindow;
    var found := NOTHING;
    var k := 0;
    pages := 0;
    while k < PAGE_CAP
      invariant 0 <= k <= PAGE_CAP && pages == k
      invariant forall j :: 0 <= j < k ==> GoesOn(replies(j), cutoff)
      invariant found == AddAll(RowsOf(replies, k), cutoff, own)
    {
      var page := replies(k);
      pages := k + 1;
      if page.Unreadable? {
        assert !GoesOn(replies(k), cutoff);
        return None, pages;
      }
      var past;
      found, past := ReadPage(page.rows, found, cutoff, own, RowsOf(replies, k));
      if past || !page.hasMore {
        return Some(found), pages;
      }
      if !page.cursor {
        assert !GoesOn(replies(k), cutoff);
        return None, pages;
      }
      k := k + 1;
    }
    result := None;
  }

  // ----- what the result means -----

  /** A mention, or a reply to one of our comments, from the window and in this thread, which is not ours. */
  predicate CallsInto(n: Note, cutoff: int, own: set<Id>, id: Id) {
    && n.created.Some? && cutoff <= n.created.value && (n.kind == Mention || n.kind == CommentReply)
    && n.post == Some(id) && id !in own
  }

  /** A mention asks about the comment that names us, or about the post itself. */
  predicate Asks(n: Note, x: Id) {
    n.kind == Mention && (n.comment == Some(x) || (n.comment.None? && n.post == Some(x)))
  }

  lemma InvitesMeans(n: Note, cutoff: int, own: set<Id>)
    ensures forall id :: CallsInto(n, cutoff, own, id) <==> Invites(n, cutoff, own) && n.post.value == id
    ensures forall x :: Invites(n, cutoff, own) ==> (Asks(n, x) <==> n.kind == Mention && Target(n) == x)
  {
  }

  ghost predicate Invited(rows: seq<Note>, cutoff: int, own: set<Id>, id: Id) {
    exists n :: n in rows && CallsInto(n, cutoff, own, id)
  }

  ghost predicate Named(rows: seq<Note>, cutoff: int, own: set<Id>, id: Id, x: Id) {
    exists n :: n in rows && CallsInto(n, cutoff, own, id) && Asks(n, x)
  }

  /** An entry names what the mentions of its thread name, each once, and says whether there is one. */
  ghost predicate Describes(e: Entry, rows: seq<Note>, cutoff: int, own: set<Id>, id: Id) {
    && Distinct(e.targets)
    && (e.mentioned <==> e.targets != [])
    && (forall x :: x in e.targets <==> Named(rows, cutoff, own, id, x))
  }

  /** The found threads against the notifications themselves. */
  ghost predicate Lists(f: Found, rows: seq<Note>, cutoff: int, own: set<Id>) {
    && Distinct(f.order) && (forall id :: id in f.order <==> id in f.entries)
    && (forall id :: id in f.entries <==> Invited(rows, cutoff, own, id))
    && (forall id :: id in f.entries ==> Describes(f.entries[id], rows, cutoff, own, id))
  }

  /** One more row invites into its own thread and names its own target. */
  lemma OneMore(rows: seq<Note>, n: Note, cutoff: int, own: set<Id>)
    ensures forall id :: Invited(rows + [n], cutoff, own, id)
                    <==> Invited(rows, cutoff, own, id) || (Invites(n, cutoff, own) && n.post.value == id)
    ensures forall id, x :: Named(rows + [n], cutoff, own, id, x)
                       <==> Named(rows, cutoff, own, id, x)
                            || (Invites(n, cutoff, own) && n.post.value == id && n.kind == Mention && Target(n) == x)
  {
    InvitesMeans(n, cutoff, own);
    var more := rows + [n];
    hide Invites, CallsInto, Asks, Target;
    assert forall m :: m in more <==> m in rows || m == n;
    forall id ensures Invited(more, cutoff, own, id) <==> Invited(rows, cutoff, own, id) || CallsInto(n, cutoff, own, id) {
    }
    forall id, x
      ensures Named(more, cutoff, own, id, x) <==> Named(rows, cutoff, own, id, x) || (CallsInto(n, cutoff, own, id) && Asks(n, x))
    {
    }
  }

  lemma NamedIsInvited(rows: seq<Note>, cutoff: int, own: set<Id>)
    ensures forall id, x :: Named(rows, cutoff, own, id, x) ==> Invited(rows, cutoff, own, id)
  {
  }

  lemma AddNoteLists(f: Found, rows: seq<Note>, n: Note, cutoff: int, own: set<Id>)
    requires Lists(f, rows, cutoff, own)
    ensures Lists(AddNote(f, n, cutoff, own), rows + [n], cutoff, own)
  {
    hide Invited, Named, Target;
    OneMore(rows, n, cutoff, own);
    NamedIsInvited(rows, cutoff, own);
    var g := AddNote(f, n, cutoff, own);
    forall id | id in g.entries ensures Describes(g.entries[id], rows + [n], cutoff, own, id) {
      if id in f.entries {
        assert Describes(f.entries[id], rows, cutoff, own, id);
      }
    }
  }

  lemma {:induction false} AddAllLists(rows: seq<Note>, cutoff: int, own: set<Id>)
    ensures Lists(AddAll(rows, cutoff, own), rows, cutoff, own)
  {
    hide AddNote, Invites;
    if rows != [] {
      var init, last := rows[..|rows| - 1], rows[|rows| - 1];
      assert rows == init + [last];
      AddAllLists(init, cutoff, own);
      AddNoteLists(AddAll(init, cutoff, own), init, last, cutoff, own);
    }
  }

  // ----- complete for the window -----

  ghost predicate NewestFirst(rows: seq<Note>) {
    forall i, j :: 0 <= i < j < |rows| && rows[i].created.Some? && rows[j].created.Some?
      ==> rows[i].created.value >= rows[j].created.value
  }

  lemma {:induction false} RowsGrow(replies: nat -> Reply, n: nat, total: nat)
    requires n <= total
    ensures RowsOf(replies, n) <= RowsOf(replies, total)
  {
    if n < total {
      RowsGrow(replies, n, total - 1);
    }
  }

  lemma {:induction false} OldRowsAddNothing(rows: seq<Note>, more: seq<Note>, cutoff: int, own: set<Id>)
    requires forall i :: 0 <= i < |more| ==> !InWindow(more[i], cutoff)
    ensures AddAll(rows + more, cutoff, own) == AddAll(rows, cutoff, own)
  {
    if more == [] {
      assert rows + more == rows;
    } else {
      var init := more[..|more| - 1];
      assert (rows + more)[..|rows| + |more| - 1] == rows + init;
      OldRowsAddNothing(rows, init, cutoff, own);
    }
  }

  /**
   Complete or nothing: over a newest-first listing the pages that were read already say
   everything the whole listing says about the window. `total` is how far the listing goes.
   */
  lemma CompleteForWindow(replies: nat -> Reply, cutoff: int, own: set<Id>, n: nat, total: nat)
    requires CompletesAfter(replies, cutoff, n) && n <= total && NewestFirst(RowsOf(replies, total))
    requires !replies(n - 1).hasMore ==> total == n
    ensures Lists(AddAll(RowsOf(replies, n), cutoff, own), RowsOf(replies, total), cutoff, own)
  {
    hide AddAll, Lists;
    var part, whole := RowsOf(replies, n), RowsOf(replies, total);
    RowsGrow(replies, n, total);
    var rest := whole[|part|..];
    assert whole == part + rest;
    if replies(n - 1).hasMore {
      var last := replies(n - 1).rows;
      var i :| 0 <= i < |last| && PastWindow(last[i], cutoff);
      var at := |part| - |last| + i;
      assert part == RowsOf(replies, n - 1) + last;
      assert whole[at] == last[i];
      forall j | 0 <= j < |rest| ensures !InWindow(rest[j], cutoff) {
        assert rest[j] == whole[|part| + j];
      }
    } else {
      assert rest == [];
    }
    OldRowsAddNothing(part, rest, cutoff, own);
    AddAllLists(whole, cutoff, own);
  }

  /** Out of order, a read that calls itself complete can miss an invitation inside the window. */
  lemma OutOfOrderMisses(cutoff: int, id: Id)
    ensures exists replies: nat -> Reply ::
              CompletesAfter(replies, cutoff, 1)
              && AddAll(RowsOf(replies, 1), cutoff, {}) == NOTHING && Invited(RowsOf(replies, 2), cutoff, {}, id)
  {
    var late := Note(Some(cutoff), Mention, Some(id), None);
    var first := Page([Note(Some(cutoff - 1), OtherKind, None, None)], true, true);
    var replies := (k: nat) => if k == 0 then first else Page([late], false, false);
    assert PastWindow(first.rows[0], cutoff);
    assert RowsOf(replies, 0) == [];
    assert RowsOf(replies, 1) == first.rows;
    assert RowsOf(replies, 2) == first.rows + [late];
    assert late in RowsOf(replies, 2) && CallsInto(late, cutoff, {}, id);
    assert first.rows[..0] == [];
    assert CompletesAfter(replies, cutoff, 1);
    assert AddAll(RowsOf(replies, 1), cutoff, {}) == NOTHING;
  }
}
