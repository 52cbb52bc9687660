/** What a run of the reply radar does, said of the fields of posts, answers and counters. */
module RadarMeaning {
  import opened Common
  import opened StableSort
  import opened RadarClaims
  import opened Radar
  import opened RadarLaws
  import opened RadarRuns

  // ----- order, room and window -----

  /** The source a post came from, in the order in which equals are taken. */
  predicate Before(a: Source, b: Source) {
    || (a == TargetList && b != TargetList)
    || (a == Mention && b in {Search, OtherSource})
    || (a == Search && b == OtherSource)
  }

  /** Of two posts the one with more views comes first, of equals the better tier, of these the better source. */
  lemma OrderMeans(posts: seq<Post>, i: nat, j: nat)
    requires i < j < |ByViews(posts)|
    ensures var x, y := ByViews(posts)[i], ByViews(posts)[j];
            && x.views >= y.views
            && (x.views == y.views ==> x.tier <= y.tier)
            && (x.views == y.views && x.tier == y.tier ==> !Before(y.source, x.source))
  {
    ByViewsIsOrdered(posts);
    hide ByViews;
    assert MayPrecede(ByViews(posts)[i], ByViews(posts)[j]);
  }

  /** Room for what is asked and what the day has left of three. */
  lemma RoomMeans(st: State, r: Session)
    ensures var done := if DayOf(r.start) in st.perDay then st.perDay[DayOf(r.start)] else 0;
            Room(st, r) == if done >= 3 then (if r.limit < 0 then r.limit else 0)
                           else if r.limit < 3 - done then r.limit else 3 - done
  {
  }

  /** Four hours back on the first run; then half an hour before the last run, but never more than fifteen hours. */
  lemma WindowMeans(st: State, now: int)
    ensures st.lastRunAt.None? ==> Since(st, now) == now - 4 * 3600
    ensures st.lastRunAt.Some? ==> Since(st, now) >= st.lastRunAt.value - 1800 && Since(st, now) >= now - 15 * 3600
    ensures st.lastRunAt.Some? ==> Since(st, now) in {st.lastRunAt.value - 1800, now - 15 * 3600}
  {
  }

  // ----- one turn -----

  /** The author had a draft in this run, or two today; a mention is answered all the same. */
  predicate HadEnough(p: Progress, t: Post, today: Day) {
    && t.source != Mention && t.author != ""
    && (t.author in p.used
        || (today in p.state.perAuthor && t.author in p.state.perAuthor[today] && p.state.perAuthor[today][t.author] >= 2))
  }

  /** A failure on our side leaves the post for the next run. */
  predicate OurFault(kind: string) {
    kind == "truncated" || kind == "api-error" || kind == "no-key" || kind == "empty" || kind == "retired"
  }

  /**
   One turn: the author's cap, then the drafter's answer, then the claims. Exactly one reason or a
   draft; the post is settled, outside a dry run, by a draft, a clash, or a refusal not our fault.
   */
  lemma TurnMeans(p: Progress, t: Post, i: nat, r: Session)
    ensures var q, a := Visit(p, t, i, r), r.answers(i);
            var enough := HadEnough(p, t, DayOf(r.start));
            var clash := a.Text? && Conflict(p.state.claims, a.marks, r.start, r.clock(i), r.blocked);
            var drafted := !enough && a.Text? && !clash;
            && q.drafts == p.drafts + (if drafted then [Draft(t, DayOf(r.start), r.clock(i), a.marks, a.passes)] else [])
            && q.reasons == p.reasons + (if enough then multiset{AuthorCap}
                                         else if a.Refused? then multiset{NotDrafted(a.kind)}
                                         else if clash then multiset{ClaimClash}
                                         else if a.passes then multiset{} else multiset{VoiceGate})
            && q.used == p.used + (if drafted then {t.author} else {})
            && q.state.seen == (if !r.dry && !enough && (a.Text? || !OurFault(a.kind)) then MarkSeen(p.state, t.id).seen else p.state.seen)
            && q.state.claims == (if drafted && a.passes then Remember(p.state.claims, a.marks, r.clock(i)) else p.state.claims)
  {
    hide LastSeen, Remember, Conflict;
    assert AuthorCapped(p.state, t, p.used, Today(r)) <==> HadEnough(p, t, DayOf(r.start));
    assert p.drafts + [] == p.drafts && p.reasons + multiset{} == p.reasons && p.used + {} == p.used;
    if r.answers(i).Text? {
      BookKeeps(Spend(p.state, r.answers(i), r.clock(i)), t, Today(r));
      hide Book;
    } else {
      assert IsFinal(r.answers(i).kind) <==> !OurFault(r.answers(i).kind);
    }
  }

  /** The list of seen posts takes the new one at its end and keeps the last two thousand. */
  lemma SeenMeans(st: State, id: Id)
    ensures var all := st.seen + [id];
            MarkSeen(st, id).seen == if |all| > 2000 then all[|all| - 2000..] else all
  {
  }

  /** A draft that was sent counts for its day and its author, and days gone by are dropped. */
  lemma BookMeans(st: State, t: Post, today: Day)
    ensures var b := Book(st, t, today);
            && today in b.perDay && b.perDay[today] == (if today in st.perDay then st.perDay[today] else 0) + 1
            && (forall k :: k in b.perDay && k != today ==> k > today && k in st.perDay && b.perDay[k] == st.perDay[k])
            && (forall k :: k in st.perDay && k >= today ==> k in b.perDay)
            && (t.author != "" ==> today in b.perAuthor && t.author in b.perAuthor[today])
            && (t.author != "" ==>
                b.perAuthor[today][t.author]
                == (if today in st.perAuthor && t.author in st.perAuthor[today] then st.perAuthor[today][t.author] else 0) + 1)
            && (t.author == "" ==> b.perAuthor == st.perAuthor)
            && (forall k :: k in b.perAuthor && k != today ==> k in st.perAuthor && b.perAuthor[k] == st.perAuthor[k])
  {
    hide LastSeen;
  }

  // ----- what a run leaves -----

  /** The newest id read from the list, as numbers compare. */
  lemma {:induction false} NewestMeans(fetched: seq<Post>)
    ensures var n := NewestListId(fetched);
            && (n.None? <==> forall t :: t in fetched ==> t.source != TargetList)
            && (n.Some? ==> exists t :: t in fetched && t.source == TargetList && t.num == n.value)
            && (n.Some? ==> forall t :: t in fetched && t.source == TargetList ==> t.num <= n.value)
  {
    if fetched != [] {
      var init, last := fetched[..|fetched| - 1], fetched[|fetched| - 1];
      assert fetched == init + [last];
      NewestMeans(init);
      assert forall t :: t in fetched <==> t in init || t == last;
    }
  }

  /** When a run notes its time, and what the prompt's row of the day gains. */
  lemma EndMeans(st: State, r: Session)
    ensures var p := RunOnce(st, r);
            var idle := r.paused || Room(st, r) == 0 || (forall t :: t in r.fetched ==> !Worthwhile(t, st.seen, Since(st, r.start)));
            && (idle || !r.dry ==> p.state.lastRunAt == Some(r.start))
            && (!idle && r.dry ==> p.state.lastRunAt == st.lastRunAt)
            && (idle ==> p.drafts == [] && p.state.prompts == st.prompts)
            && (!idle ==>
                var row, was := PromptOn(p.state, DayOf(r.start)), PromptOn(st, DayOf(r.start));
                && row.runs == was.runs + 1 && row.drafts == was.drafts + |p.drafts| && row.passed == was.passed + p.passed
                && row.candidates == was.candidates + |Candidates(st, r)|)
            && p.state.listSince == (if r.paused || Room(st, r) == 0 || NewestListId(r.fetched).None? then st.listSince
                                     else NewestListId(r.fetched))
  {
    hide Walk, ByViews, NewestListId, Room, Since, Worthwhile, IsCandidate;
    WhoIsCandidate(r.fetched, st.seen, Since(st, r.start));
    var candidates := Candidates(st, r);
    assert candidates != [] ==> candidates[0] in candidates;
    WalkKeeps(Begin(Opened(st, r)), Offered(st, r), 0, Room(st, r), r);
    RunAccounts(st, r);
    NothingToWalk(Begin(Opened(st, r)), Room(st, r), r);
  }

  /** Drafting touches neither the window, nor the list id, nor the prompt's rows. */
  lemma {:induction false} WalkKeeps(p: Progress, ordered: seq<Post>, i: nat, room: int, r: Session)
    requires i <= |ordered|
    ensures var q := Walk(p, ordered, i, room, r).state;
            q.lastRunAt == p.state.lastRunAt && q.listSince == p.state.listSince && q.prompts == p.state.prompts
    decreases |ordered| - i
  {
    hide Visit, Lapse;
    if i < |ordered| {
      if p.made >= room {
        LapseKeeps(p, ordered[i..], r.dry);
      } else {
        VisitKeeps(p, ordered[i], i, r);
        WalkKeeps(Visit(p, ordered[i], i, r), ordered, i + 1, room, r);
      }
    }
  }

  lemma VisitKeeps(p: Progress, t: Post, i: nat, r: Session)
    ensures var q := Visit(p, t, i, r).state;
            q.lastRunAt == p.state.lastRunAt && q.listSince == p.state.listSince && q.prompts == p.state.prompts
  {
    hide Remember, Conflict, AuthorCapped, IsFinal, LastSeen, Book;
    if r.answers(i).Text? {
      BookKeeps(Spend(p.state, r.answers(i), r.clock(i)), t, Today(r));
    }
  }

  lemma {:induction false} LapseKeeps(p: Progress, rest: seq<Post>, dry: bool)
    ensures var q := Lapse(p, rest, dry).state;
            q.lastRunAt == p.state.lastRunAt && q.listSince == p.state.listSince && q.prompts == p.state.prompts
    decreases |rest|
  {
    if rest != [] {
      LapseKeeps(Skip(p, DailyCap, rest[0].id, !dry), rest[1..], dry);
    }
  }
}
