/** What holds of every run of the reply radar. */
module RadarLaws {
  import opened Common
  import opened StableSort
  import opened RadarClaims
  import opened Radar

  // ----- the drafting order -----

  predicate MayPrecede(x: Post, y: Post) {
    x.views > y.views || (x.views == y.views && !RanksBefore(y, x))
  }

  /** Most views first; among equals, tier, source and then the order they were read in. */
  ghost predicate WellOrdered(s: seq<Post>) {
    forall i, j :: 0 <= i < j < |s| ==> MayPrecede(s[i], s[j])
  }

  lemma InsertMember(x: Post, s: seq<Post>, y: Post)
    requires y in Insert(x, s, MoreViews)
    ensures y == x || y in s
  {
    InsertPermutes(x, s, MoreViews);
    assert y in multiset(Insert(x, s, MoreViews));
  }

  lemma {:induction false} InsertKeepsOrder(x: Post, s: seq<Post>)
    requires WellOrdered(s) && forall y :: y in s ==> !RanksBefore(x, y)
    ensures WellOrdered(Insert(x, s, MoreViews))
  {
    hide RanksBefore;
    if s != [] {
      if MoreViews(x, s[0]) {
        forall y | y in s ensures MayPrecede(x, y) {
          assert y == s[0] || MayPrecede(s[0], y);
        }
      } else {
        var rest := Insert(x, s[1..], MoreViews);
        assert forall y :: y in s[1..] ==> y in s;
        InsertKeepsOrder(x, s[1..]);
        forall y | y in rest ensures MayPrecede(s[0], y) {
          InsertMember(x, s[1..], y);
          assert s[0] in s;
          if y in s[1..] {
            var k :| 0 <= k < |s[1..]| && s[1..][k] == y;
            assert s[k + 1] == y;
          }
        }
        assert Insert(x, s, MoreViews) == [s[0]] + rest;
      }
    }
  }

  lemma {:induction false} SortKeepsOrder(s: seq<Post>)
    requires Ordered(s, RanksBefore)
    ensures WellOrdered(Sort(s, MoreViews))
  {
    if s != [] {
      var init, last := s[..|s| - 1], s[|s| - 1];
      SortKeepsOrder(init);
      forall y | y in Sort(init, MoreViews) ensures !RanksBefore(last, y) {
        SortMember(init, MoreViews, y);
        var k :| 0 <= k < |init| && init[k] == y;
        assert s[k] == y;
      }
      InsertKeepsOrder(last, Sort(init, MoreViews));
    }
  }

  lemma ByViewsIsOrdered(posts: seq<Post>)
    ensures WellOrdered(ByViews(posts))
    ensures multiset(ByViews(posts)) == multiset(posts) && |ByViews(posts)| == |posts|
  {
    assert WeakOrder(RanksBefore);
    SortOrdered(posts, RanksBefore);
    SortKeepsOrder(Sort(posts, RanksBefore));
    SortPermutes(posts, RanksBefore);
    SortPermutes(Sort(posts, RanksBefore), MoreViews);
  }

  /** Posts of one tier, source and view count. */
  function SameRank(tier: int, source: Source, views: int): Post -> bool {
    (t: Post) => t.tier == tier && t.source == source && t.views == views
  }

  /** Posts that tie in everything keep the order they were read in. */
  lemma TiesKeepReadingOrder(posts: seq<Post>, tier: int, source: Source, views: int)
    ensures Filter(ByViews(posts), SameRank(tier, source, views)) == Filter(posts, SameRank(tier, source, views))
  {
    var tied := SameRank(tier, source, views);
    var selected := Filter(posts, tied);
    assert WeakOrder(RanksBefore) && WeakOrder(MoreViews);
    FilterSort(posts, RanksBefore, tied);
    FilterSort(Sort(posts, RanksBefore), MoreViews, tied);
    forall x | x in selected ensures tied(x) {
      FilterMember(posts, tied, x);
    }
    SortTied(selected, RanksBefore);
    SortTied(selected, MoreViews);
  }

  // ----- accounting -----

  /** Candidates a progress has settled: drafts, and reasons that are not the voice gate's. */
  function Accounted(p: Progress): int {
    p.made + |p.reasons| - p.reasons[VoiceGate]
  }

  function RefusedByGate(): Draft -> bool {
    (d: Draft) => !d.passed
  }

  ghost predicate Balanced(p: Progress) {
    |p.drafts| == p.made == p.passed + p.reasons[VoiceGate] && p.reasons[VoiceGate] == |Filter(p.drafts, RefusedByGate())|
  }

  lemma VisitAccounts(p: Progress, t: Post, i: nat, r: Session)
    ensures var q := Visit(p, t, i, r);
            && Accounted(q) == Accounted(p) + 1
            && (Balanced(p) ==> Balanced(q))
            && q.reasons[DailyCap] == p.reasons[DailyCap]
            && p.made <= q.made <= p.made + 1
            && p.drafts <= q.drafts
            && (forall d :: d in q.drafts ==> d in p.drafts || d.post == t)
  {
    hide MarkSeen, Book, Remember, Conflict, AuthorCapped, IsFinal, RefusedByGate;
    var q := Visit(p, t, i, r);
    if q.made > p.made {
      var d := q.drafts[|p.drafts|];
      FilterAppend(p.drafts, [d], RefusedByGate());
      assert [d][1..] == [];
      assert RefusedByGate()(d) == !d.passed by { GateOf(d); }
    }
  }

  lemma GateOf(d: Draft)
    ensures RefusedByGate()(d) == !d.passed
  {
  }

  lemma {:induction false} LapseAccounts(p: Progress, rest: seq<Post>, dry: bool)
    ensures var q := Lapse(p, rest, dry);
            && Accounted(q) == Accounted(p) + |rest|
            && (Balanced(p) ==> Balanced(q))
            && q.reasons[DailyCap] == p.reasons[DailyCap] + |rest|
            && q.made == p.made && q.drafts == p.drafts
            && q.state == p.state.(seen := q.state.seen)
    decreases |rest|
  {
    if rest != [] {
      LapseAccounts(Skip(p, DailyCap, rest[0].id, !dry), rest[1..], dry);
    }
  }

  lemma {:induction false} WalkAccounts(p: Progress, ordered: seq<Post>, i: nat, room: int, r: Session)
    requires i <= |ordered| && Balanced(p) && p.reasons[DailyCap] == 0
    requires forall d :: d in p.drafts ==> d.post in ordered[..i]
    ensures var q := Walk(p, ordered, i, room, r);
            var lapsed := q.reasons[DailyCap];
            && Accounted(q) == Accounted(p) + |ordered| - i
            && Balanced(q)
            && (q.made <= room || q.made == p.made)
            && lapsed <= |ordered| - i
            && (lapsed > 0 ==> q.made >= room)
            && (forall d :: d in q.drafts ==> d.post in ordered[..|ordered| - lapsed])
    decreases |ordered| - i
  {
    hide Visit, Lapse, Balanced, Accounted;
    if i < |ordered| {
      if p.made >= room {
        LapseAccounts(p, ordered[i..], r.dry);
      } else {
        var q := Visit(p, ordered[i], i, r);
        VisitAccounts(p, ordered[i], i, r);
        forall d | d in q.drafts ensures d.post in ordered[..i + 1] {
          assert ordered[..i + 1] == ordered[..i] + [ordered[i]];
        }
        WalkAccounts(q, ordered, i + 1, room, r);
      }
    }
  }

  /**
   The account of a run: every candidate is a draft or carries exactly one reason, a draft the
   gate refused carries the gate's reason as well, and drafts never exceed the room.
   */
  lemma RunAccounts(st: State, r: Session)
    ensures var p := RunOnce(st, r);
            && |p.drafts| == p.made
            && |Offered(st, r)| == p.made + |p.reasons| - p.reasons[VoiceGate]
            && p.reasons[VoiceGate] == |Filter(p.drafts, RefusedByGate())|
            && p.made <= (if Room(st, r) > 0 then Room(st, r) else 0)
            && p.passed + p.reasons[VoiceGate] == p.made
            && (!r.paused && Room(st, r) != 0 ==> |Offered(st, r)| == |Candidates(st, r)|)
  {
    hide Walk, ByViews;
    WalkAccounts(Begin(Opened(st, r)), Offered(st, r), 0, Room(st, r), r);
    ByViewsIsOrdered(Candidates(st, r));
  }

  /** Every draft answers a post read in this run, new to us, somebody else's, recent, and worth an answer. */
  lemma DraftsAnswerWorthwhile(st: State, r: Session, d: Draft)
    requires d in RunOnce(st, r).drafts
    ensures d.post in r.fetched && Worthwhile(d.post, st.seen, Since(st, r.start))
  {
    hide Walk, ByViews, Worthwhile, Since;
    WalkAccounts(Begin(Opened(st, r)), Offered(st, r), 0, Room(st, r), r);
    LapsedHaveFewerViews(st, r);
    var offered := Offered(st, r);
    assert d.post in offered;
    ByViewsIsOrdered(Candidates(st, r));
    assert d.post in multiset(Candidates(st, r));
    WhoIsCandidate(r.fetched, st.seen, Since(st, r.start));
  }

  /**
   What lapses at the cap is the tail of the drafting order: no lapsed post has more views
   than a drafted one, and something lapses only when the room is used up.
   */
  lemma LapsedHaveFewerViews(st: State, r: Session)
    ensures var p, offered := RunOnce(st, r), Offered(st, r);
            var lapsed := p.reasons[DailyCap];
            && lapsed <= |offered|
            && (lapsed > 0 ==> p.made >= Room(st, r))
            && (forall d :: d in p.drafts ==> d.post in offered[..|offered| - lapsed])
            && (forall d, j :: d in p.drafts && |offered| - lapsed <= j < |offered| ==> offered[j].views <= d.post.views)
  {
    hide Walk, ByViews;
    var p, offered := RunOnce(st, r), Offered(st, r);
    WalkAccounts(Begin(Opened(st, r)), offered, 0, Room(st, r), r);
    var kept := |offered| - p.reasons[DailyCap];
    ByViewsIsOrdered(Candidates(st, r));
    forall d, j | d in p.drafts && kept <= j < |offered| ensures offered[j].views <= d.post.views {
      var k :| 0 <= k < kept && offered[..kept][k] == d.post;
      assert offered[k] == d.post;
    }
  }

  // ----- once per author and run -----

  ghost predicate AuthorsOnce(p: Progress) {
    && (forall d :: d in p.drafts ==> d.post.author in p.used)
    && forall i, j :: 0 <= i < j < |p.drafts| && p.drafts[j].post.source != Mention && p.drafts[j].post.author != ""
         ==> p.drafts[i].post.author != p.drafts[j].post.author
  }

  lemma {:induction false} WalkAuthorsOnce(p: Progress, ordered: seq<Post>, i: nat, room: int, r: Session)
    requires i <= |ordered| && AuthorsOnce(p)
    ensures AuthorsOnce(Walk(p, ordered, i, room, r))
    decreases |ordered| - i
  {
    hide Lapse, MarkSeen, Book, Remember, Conflict, IsFinal;
    if i < |ordered| {
      if p.made >= room {
        LapseUsed(p, ordered[i..], r.dry);
      } else {
        WalkAuthorsOnce(Visit(p, ordered[i], i, r), ordered, i + 1, room, r);
      }
    }
  }

  lemma {:induction false} LapseUsed(p: Progress, rest: seq<Post>, dry: bool)
    ensures Lapse(p, rest, dry).used == p.used && Lapse(p, rest, dry).drafts == p.drafts
    decreases |rest|
  {
    if rest != [] {
      LapseUsed(Skip(p, DailyCap, rest[0].id, !dry), rest[1..], dry);
    }
  }

  /** In one run no draft for a named author follows another, unless it answers a mention. */
  lemma OneDraftPerAuthor(st: State, r: Session)
    ensures AuthorsOnce(RunOnce(st, r))
  {
    WalkAuthorsOnce(Begin(Opened(st, r)), Offered(st, r), 0, Room(st, r), r);
  }

  // ----- lapsed and drafted posts are settled -----

  /** Among the last `n` entries of the list of seen posts. */
  ghost predicate SeenLately(st: State, id: Id, n: nat) {
    exists k :: 0 <= k < |st.seen| && |st.seen| - n <= k && st.seen[k] == id
  }

  lemma MarkKeepsSeen(st: State, id: Id, x: Id, n: nat)
    requires SeenLately(st, id, n) && n < SEEN_KEPT
    ensures SeenLately(MarkSeen(st, x), id, n + 1)
  {
    var k :| 0 <= k < |st.seen| && |st.seen| - n <= k && st.seen[k] == id;
    var all := st.seen + [x];
    assert all[k] == id;
    var after := MarkSeen(st, x).seen;
    var shift := |all| - |after|;
    assert after[k - shift] == id;
  }

  lemma MarkedIsSeen(st: State, x: Id)
    ensures SeenLately(MarkSeen(st, x), x, 1)
  {
    var after := MarkSeen(st, x).seen;
    assert after[|after| - 1] == x;
  }

  lemma VisitKeepsSeen(p: Progress, t: Post, i: nat, r: Session, id: Id, n: nat)
    requires SeenLately(p.state, id, n) && n < SEEN_KEPT
    ensures SeenLately(Visit(p, t, i, r).state, id, n + 1)
  {
    hide MarkSeen, Remember, Conflict, AuthorCapped, IsFinal, Book;
    MarkKeepsSeen(p.state, id, t.id, n);
    MadeSeen(p, t, i, r);
  }

  /** A draft leaves the list of seen posts as marking its post does. */
  lemma MadeSeen(p: Progress, t: Post, i: nat, r: Session)
    ensures var q := Visit(p, t, i, r);
            && (q.state.seen == p.state.seen || q.state.seen == MarkSeen(p.state, t.id).seen)
            && (!r.dry && q.made > p.made ==> q.state.seen == MarkSeen(p.state, t.id).seen)
  {
    hide Remember, Conflict, AuthorCapped, IsFinal, LastSeen, Book;
    if r.answers(i).Text? {
      BookKeeps(Spend(p.state, r.answers(i), r.clock(i)), t, Today(r));
    }
  }

  lemma {:induction false} LapseKeepsSeen(p: Progress, rest: seq<Post>, dry: bool, id: Id, n: nat)
    requires SeenLately(p.state, id, n) && n + |rest| <= SEEN_KEPT
    ensures SeenLately(Lapse(p, rest, dry).state, id, n + |rest|)
    decreases |rest|
  {
    hide MarkSeen;
    if rest != [] {
      MarkKeepsSeen(p.state, id, rest[0].id, n);
      LapseKeepsSeen(Skip(p, DailyCap, rest[0].id, !dry), rest[1..], dry, id, n + 1);
    }
  }

  lemma {:induction false} LapseMarks(p: Progress, rest: seq<Post>, j: nat)
    requires j < |rest| <= SEEN_KEPT
    ensures SeenLately(Lapse(p, rest, false).state, rest[j].id, |rest|)
    decreases |rest|
  {
    hide MarkSeen, SeenLately;
    var q := Skip(p, DailyCap, rest[0].id, true);
    if j == 0 {
      MarkedIsSeen(p.state, rest[0].id);
      LapseKeepsSeen(q, rest[1..], false, rest[0].id, 1);
    } else {
      LapseMarks(q, rest[1..], j - 1);
      Widen(Lapse(p, rest, false).state, rest[j].id, |rest| - 1);
    }
  }

  lemma Widen(st: State, id: Id, n: nat)
    requires SeenLately(st, id, n)
    ensures forall m :: m >= n ==> SeenLately(st, id, m)
  {
  }

  lemma {:induction false} WalkMarks(p: Progress, ordered: seq<Post>, i: nat, room: int, r: Session)
    requires i <= |ordered| <= SEEN_KEPT && !r.dry && p.reasons[DailyCap] == 0
    requires forall d :: d in p.drafts ==> SeenLately(p.state, d.post.id, i)
    ensures var q := Walk(p, ordered, i, room, r);
            && (forall d :: d in q.drafts ==> SeenLately(q.state, d.post.id, |ordered|))
            && q.reasons[DailyCap] <= |ordered|
            && (forall j :: |ordered| - q.reasons[DailyCap] <= j < |ordered| ==> SeenLately(q.state, ordered[j].id, |ordered|))
    decreases |ordered| - i
  {
    hide Visit, Lapse, SeenLately, MarkSeen;
    if i < |ordered| {
      if p.made >= room {
        LapseAccounts(p, ordered[i..], r.dry);
        forall d | d in p.drafts ensures SeenLately(Walk(p, ordered, i, room, r).state, d.post.id, |ordered|) {
          LapseKeepsSeen(p, ordered[i..], r.dry, d.post.id, i);
        }
        forall j | i <= j < |ordered| ensures SeenLately(Walk(p, ordered, i, room, r).state, ordered[j].id, |ordered|) {
          LapseMarks(p, ordered[i..], j - i);
          Widen(Lapse(p, ordered[i..], r.dry).state, ordered[j].id, |ordered| - i);
        }
      } else {
        var q := Visit(p, ordered[i], i, r);
        VisitAccounts(p, ordered[i], i, r);
        forall d | d in q.drafts ensures SeenLately(q.state, d.post.id, i + 1) {
          VisitMarks(p, ordered[i], i, r, d);
        }
        WalkMarks(q, ordered, i + 1, room, r);
      }
    }
  }

  lemma VisitMarks(p: Progress, t: Post, i: nat, r: Session, d: Draft)
    requires i < SEEN_KEPT && !r.dry && d in Visit(p, t, i, r).drafts
    requires d in p.drafts ==> SeenLately(p.state, d.post.id, i)
    ensures SeenLately(Visit(p, t, i, r).state, d.post.id, i + 1)
  {
    hide MarkSeen, Remember, Conflict, AuthorCapped, IsFinal, Book;
    if d in p.drafts {
      VisitKeepsSeen(p, t, i, r, d.post.id, i);
    } else {
      MadeSeen(p, t, i, r);
      MarkedIsSeen(p.state, t.id);
      Widen(MarkSeen(p.state, t.id), t.id, 1);
    }
  }

  /** A post drafted or lapsed in a real run is not a candidate of the next one. */
  lemma SettledPostsDoNotReturn(st: State, r: Session, t: Post, since: int)
    requires !r.dry && r.ends.Completes? && |Offered(st, r)| <= SEEN_KEPT
    requires var p, offered := RunOnce(st, r), Offered(st, r);
             (exists d :: d in p.drafts && d.post.id == t.id)
             || (exists j :: 0 <= j < |offered| && |offered| - p.reasons[DailyCap] <= j && offered[j].id == t.id)
    ensures DropReason(t, Saved(st, r).seen, since) == Some(SeenBefore)
  {
    hide Walk;
    WalkMarks(Begin(Opened(st, r)), Offered(st, r), 0, Room(st, r), r);
    assert SeenLately(RunOnce(st, r).state, t.id, |Offered(st, r)|);
  }
}
