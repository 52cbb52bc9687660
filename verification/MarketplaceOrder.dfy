/**
 What the order of delivery decides about a subscriber row: which events can have the last
 word, what becomes of events that come before their licence event, and exactly when two
 orders of the same events leave a row different.
 */
module MarketplaceOrder {
  import opened Common
  import opened Marketplace

  // ----- what the order of delivery decides -----

  ghost predicate SameEvents(a: seq<Event>, b: seq<Event>) {
    forall e :: e in a <==> e in b
  }

  /** An event that finds the row only once g has stamped its agreement onto it. */
  predicate FoundBy(r: Subscriber, g: Event, e: Event) {
    Stamps(r, g) && !Matches(r, e) && Matches(Stamp(r, g), e)
  }

  /** The row can be given one agreement only. */
  ghost predicate OneAgreement(r: Subscriber, events: seq<Event>) {
    forall e, f :: e in events && f in events && Stamps(r, e) && Stamps(r, f) ==> e.agreement == f.agreement
  }

  /**
   In some order of the events this one decides the row. It must beat the row and every event
   that finds the row in any order; one that needs an agreement first must be able to follow a
   licence event that does not take the decision itself.
   */
  ghost predicate CanDecide(r: Subscriber, events: seq<Event>, e: Event) {
    && e in events && Overwrites(r.updatedAt, TimeOf(e))
    && (forall p :: p in events && Matches(r, p) ==> AtMost(TimeOf(p), TimeOf(e)))
    && (Matches(r, e)
        || exists g :: g in events && FoundBy(r, g, e) && !(TimeOf(e).Some? && Matches(r, g) && TimeOf(g) == TimeOf(e)))
  }

  /** In some order no event moves the row. */
  ghost predicate CanStay(r: Subscriber, events: seq<Event>) {
    forall p :: p in events && Matches(r, p) ==> !Overwrites(r.updatedAt, TimeOf(p))
  }

  ghost predicate Differ(e: Event, f: Event) {
    Verdict(e) != Verdict(f) || TimeOf(e) != TimeOf(f)
  }

  /** The order matters: two agreements for one row, two events that can decide it differently, or one that can be missed. */
  ghost predicate Contested(r: Subscriber, events: seq<Event>) {
    || !OneAgreement(r, events)
    || (exists e, f :: CanDecide(r, events, e) && CanDecide(r, events, f) && Differ(e, f))
    || (CanStay(r, events) && exists e :: CanDecide(r, events, e) && (Verdict(e) != Some(r.status) || TimeOf(e) != r.updatedAt))
  }

  /** The parts of a row that no event changes. */
  ghost predicate SameSubject(t: Subscriber, r: Subscriber) {
    t == r.(agreement := t.agreement, status := t.status, updatedAt := t.updatedAt)
  }

  /** The agreement a row carries after some events: its own, or that of a licence event among them. */
  ghost predicate AgreementFrom(r: Subscriber, events: seq<Event>, t: Subscriber) {
    && SameSubject(t, r)
    && (t.agreement == r.agreement ==> forall g :: g in events ==> !Stamps(r, g))
    && (t.agreement != r.agreement ==> exists g :: g in events && Stamps(r, g) && t.agreement == g.agreement)
  }

  lemma {:induction false} FoldAgreement(r: Subscriber, events: seq<Event>)
    ensures AgreementFrom(r, events, FoldRow(r, events))
  {
    hide Matches, ArnMatches, Verdict;
    if events != [] {
      var init, last := events[..|events| - 1], events[|events| - 1];
      assert events == init + [last];
      FoldAgreement(r, init);
      StampsAlike(FoldRow(r, init), r, last);
    }
  }

  /** Stamping and matching look at the row's subject and agreement only. */
  lemma StampsAlike(t: Subscriber, r: Subscriber, e: Event)
    requires SameSubject(t, r)
    ensures Stamps(t, e) ==> Stamps(r.(agreement := None), e)
    ensures t.agreement == r.agreement ==> Stamps(t, e) == Stamps(r, e)
  {
  }

  lemma MatchesAlike(t: Subscriber, r: Subscriber, e: Event)
    requires SameSubject(t, r)
    ensures t.agreement == r.agreement ==> Matches(t, e) == Matches(r, e)
    ensures r.agreement.None? && Matches(r, e) ==> Matches(t, e)
  {
  }

  /** Who finds the row in a state between the events: those that always do, or followers of a licence event. */
  lemma WhoMatches(r: Subscriber, events: seq<Event>, t: Subscriber, e: Event)
    requires AgreementFrom(r, events, t)
    ensures Matches(r, e) ==> Matches(Stamp(t, e), e)
    ensures Matches(Stamp(t, e), e) ==> Matches(r, e) || exists g :: g in events && FoundBy(r, g, e)
  {
    var u := Stamp(t, e);
    if t.agreement == r.agreement {
      MatchesAlike(t, r, e);
    } else {
      var g :| g in events && Stamps(r, g) && t.agreement == g.agreement;
      MatchesAlike(t, Stamp(r, g), e);
      MatchesAlike(t, r, e);
    }
  }

  /** A row as some order leaves it: untouched where that can happen, or as an event that can decide it says. */
  ghost predicate Decided(r: Subscriber, events: seq<Event>, t: Subscriber) {
    || (t.status == r.status && t.updatedAt == r.updatedAt && CanStay(r, events))
    || exists e :: CanDecide(r, events, e) && Verdict(e) == Some(t.status) && TimeOf(e) == t.updatedAt
  }

  /** The row's time covers its own and that of every event that always finds it. */
  ghost predicate Covered(r: Subscriber, events: seq<Event>, t: Subscriber) {
    && AtMost(r.updatedAt, t.updatedAt)
    && forall p :: p in events && Matches(r, p) ==> AtMost(TimeOf(p), t.updatedAt)
  }

  lemma CoveredMore(r: Subscriber, init: seq<Event>, last: Event, t: Subscriber)
    requires Covered(r, init, t) && SameSubject(t, r) && AgreementFrom(r, init, t)
    ensures Covered(r, init + [last], ApplyRow(t, last))
  {
    hide Stamps, Verdict;
    WhoMatches(r, init, t, last);
    MatchHasVerdict(Stamp(t, last), last);
    assert forall p :: p in init + [last] <==> p in init || p == last;
  }

  lemma MatchHasVerdict(r: Subscriber, e: Event)
    ensures Matches(r, e) ==> Verdict(e).Some?
  {
  }

  /** An event that moves the row can decide it: everything so far is older. */
  lemma MoverCanDecide(r: Subscriber, init: seq<Event>, last: Event, t: Subscriber)
    requires Covered(r, init, t) && AgreementFrom(r, init, t)
    requires Matches(Stamp(t, last), last) && Overwrites(t.updatedAt, TimeOf(last))
    ensures CanDecide(r, init + [last], last)
  {
    hide Stamps, Verdict, FoundBy, Matches;
    WhoMatches(r, init, t, last);
    var all := init + [last];
    assert forall p :: p in all <==> p in init || p == last;
    if !Matches(r, last) {
      var g :| g in init && FoundBy(r, g, last);
      assert g in all;
    }
  }

  /** An event that does not move the row takes no decision away. */
  lemma DecisionStands(r: Subscriber, init: seq<Event>, last: Event, t: Subscriber)
    requires Decided(r, init, t) && AgreementFrom(r, init, t)
    requires !(Matches(Stamp(t, last), last) && Overwrites(t.updatedAt, TimeOf(last)))
    ensures Decided(r, init + [last], Stamp(t, last))
  {
    hide Stamps, Verdict, FoundBy, Matches;
    WhoMatches(r, init, t, last);
    var all := init + [last];
    assert forall p :: p in all <==> p in init || p == last;
    if e :| CanDecide(r, init, e) && Verdict(e) == Some(t.status) && TimeOf(e) == t.updatedAt {
      if !Matches(r, e) {
        var g :| g in init && FoundBy(r, g, e) && !(TimeOf(e).Some? && Matches(r, g) && TimeOf(g) == TimeOf(e));
        assert g in all;
      }
      assert CanDecide(r, all, e);
    }
  }

  lemma {:induction false} FoldIsDecided(r: Subscriber, events: seq<Event>)
    ensures Covered(r, events, FoldRow(r, events)) && Decided(r, events, FoldRow(r, events))
  {
    hide CanDecide, Matches, Verdict, Stamps, Covered;
    if events == [] {
      StartIsCovered(r);
    } else {
      var init, last := events[..|events| - 1], events[|events| - 1];
      var t := FoldRow(r, init);
      assert events == init + [last];
      FoldIsDecided(r, init);
      FoldAgreement(r, init);
      CoveredMore(r, init, last, t);
      if Matches(Stamp(t, last), last) && Overwrites(t.updatedAt, TimeOf(last)) {
        MoverCanDecide(r, init, last, t);
        MatchHasVerdict(Stamp(t, last), last);
      } else {
        DecisionStands(r, init, last, t);
      }
    }
  }

  lemma StartIsCovered(r: Subscriber)
    ensures Covered(r, [], r)
  {
  }

  lemma SameCandidates(r: Subscriber, a: seq<Event>, b: seq<Event>)
    requires SameEvents(a, b)
    ensures CanStay(r, a) == CanStay(r, b) && forall e :: CanDecide(r, a, e) == CanDecide(r, b, e)
  {
    hide Matches, FoundBy, Verdict, Overwrites, AtMost;
  }

  /** Whatever order the same events are committed in, an uncontested row ends the same. */
  lemma UncontestedConverges(r: Subscriber, a: seq<Event>, b: seq<Event>)
    requires SameEvents(a, b) && !Contested(r, a)
    ensures FoldRow(r, a) == FoldRow(r, b)
  {
    var t, u := FoldRow(r, a), FoldRow(r, b);
    hide FoldRow, Matches, Verdict, CanDecide, CanStay, Stamps;
    FoldAgreement(r, a);
    FoldAgreement(r, b);
    FoldIsDecided(r, a);
    FoldIsDecided(r, b);
    SameCandidates(r, a, b);
    SameAgreement(r, a, b, t, u);
    if e :| CanDecide(r, a, e) && Verdict(e) == Some(t.status) && TimeOf(e) == t.updatedAt {
      if f :| CanDecide(r, b, f) && Verdict(f) == Some(u.status) && TimeOf(f) == u.updatedAt {
        assert !Differ(e, f);
      }
    }
  }

  lemma SameAgreement(r: Subscriber, a: seq<Event>, b: seq<Event>, t: Subscriber, u: Subscriber)
    requires SameEvents(a, b) && OneAgreement(r, a) && AgreementFrom(r, a, t) && AgreementFrom(r, b, u)
    ensures t.agreement == u.agreement
  {
    if t.agreement != r.agreement {
      var g :| g in a && Stamps(r, g) && t.agreement == g.agreement;
      assert g in b;
    }
    if u.agreement != r.agreement {
      var g :| g in b && Stamps(r, g) && u.agreement == g.agreement;
      assert g in a;
    }
  }

  // ----- orders that decide a row -----

  function Without(s: seq<Event>, e: Event): (rest: seq<Event>)
    requires e in s
    ensures multiset(s) == multiset(rest) + multiset{e}
  {
    if s[0] == e then
      assert s == [e] + s[1..];
      s[1..]
    else
      assert s == [s[0]] + s[1..];
      [s[0]] + Without(s[1..], e)
  }

  lemma SameMultiset(a: seq<Event>, b: seq<Event>)
    requires multiset(a) == multiset(b)
    ensures SameEvents(a, b)
  {
    forall e ensures e in a <==> e in b {
      assert e in multiset(a) <==> e in multiset(b);
    }
  }

  lemma {:induction false} FoldAppend(r: Subscriber, a: seq<Event>, b: seq<Event>)
    ensures FoldRow(r, a + b) == FoldRow(FoldRow(r, a), b)
  {
    if b == [] {
      assert a + b == a;
    } else {
      assert (a + b)[..|a + b| - 1] == a + b[..|b| - 1];
      FoldAppend(r, a, b[..|b| - 1]);
    }
  }

  /** Missed unless a licence event comes first. */
  ghost predicate Follower(r: Subscriber, events: seq<Event>, e: Event) {
    !Matches(r, e) && exists g :: g in events && FoundBy(r, g, e)
  }

  ghost function Followers(r: Subscriber, events: seq<Event>): Event -> bool {
    e => Follower(r, events, e)
  }

  ghost function Others(r: Subscriber, events: seq<Event>): Event -> bool {
    e => !Follower(r, events, e)
  }

  lemma {:induction false} SplitPermutes(s: seq<Event>, p: Event -> bool, q: Event -> bool)
    requires forall e :: e in s ==> p(e) == !q(e)
    ensures multiset(Filter(s, p) + Filter(s, q)) == multiset(s)
  {
    if s != [] {
      SplitPermutes(s[1..], p, q);
      assert s == [s[0]] + s[1..];
    }
  }

  lemma {:induction false} AllMissed(r: Subscriber, events: seq<Event>, missed: seq<Event>)
    requires forall e :: e in missed ==> Follower(r, events, e)
    ensures FoldRow(r, missed) == r
  {
    if missed != [] {
      AllMissed(r, events, missed[..|missed| - 1]);
      var last := missed[|missed| - 1];
      assert Follower(r, events, last);
      StampersMatchDirectly(r, last);
    }
  }

  /** A licence event that names the row's ARN needs no agreement to find it. */
  lemma StampersMatchDirectly(r: Subscriber, e: Event)
    ensures Stamps(r, e) ==> Stamp(r, e).(agreement := None) == r && (Matches(Stamp(r, e), e) ==> Matches(r, e))
    ensures forall g :: FoundBy(r, g, e) ==> !Stamps(r, e)
  {
  }

  /** Events that cannot move a row at this time leave its status and time. */
  lemma {:induction false} QuietRest(r: Subscriber, pre: seq<Event>, rest: seq<Event>, events: seq<Event>)
    requires forall e :: e in pre || e in rest ==> e in events
    requires forall h :: h in rest && (Matches(r, h) || Follower(r, events, h)) ==> !Overwrites(FoldRow(r, pre).updatedAt, TimeOf(h))
    ensures FoldRow(r, pre + rest).status == FoldRow(r, pre).status
    ensures FoldRow(r, pre + rest).updatedAt == FoldRow(r, pre).updatedAt
  {
    hide Matches, Stamps, Overwrites, FoundBy, Verdict, TimeOf;
    if rest == [] {
      assert pre + rest == pre;
    } else {
      var init, last := rest[..|rest| - 1], rest[|rest| - 1];
      assert rest == init + [last];
      QuietRest(r, pre, init, events);
      FoldAgreement(r, pre + init);
      assert pre + rest == (pre + init) + [last];
      assert (pre + rest)[..|pre + rest| - 1] == pre + init;
      WhoMatches(r, pre + init, FoldRow(r, pre + init), last);
      assert forall e :: e in pre + init ==> e in events;
      assert last in rest;
    }
  }

  /** Events without a time leave a row without a time. */
  lemma {:induction false} TimelessRest(r: Subscriber, pre: seq<Event>, rest: seq<Event>, events: seq<Event>)
    requires forall e :: e in pre || e in rest ==> e in events
    requires FoldRow(r, pre).updatedAt.None?
    requires forall h :: h in rest && (Matches(r, h) || Follower(r, events, h)) ==> TimeOf(h).None?
    ensures FoldRow(r, pre + rest).updatedAt.None?
  {
    hide Matches, Stamps, FoundBy, Verdict, TimeOf;
    if rest == [] {
      assert pre + rest == pre;
    } else {
      var init, last := rest[..|rest| - 1], rest[|rest| - 1];
      assert rest == init + [last];
      TimelessRest(r, pre, init, events);
      FoldAgreement(r, pre + init);
      assert (pre + rest)[..|pre + rest| - 1] == pre + init;
      WhoMatches(r, pre + init, FoldRow(r, pre + init), last);
      assert forall e :: e in pre + init ==> e in events;
      assert last in rest;
    }
  }

  /** All that need a licence event first, then the rest: the missed ones change nothing. */
  lemma MissedFirst(r: Subscriber, events: seq<Event>, s: seq<Event>) returns (missed: seq<Event>, rest: seq<Event>)
    requires forall e :: e in s ==> e in events
    ensures multiset(missed + rest) == multiset(s)
    ensures FoldRow(r, missed) == r
    ensures forall e :: e in missed ==> e in s && Follower(r, events, e)
    ensures forall e :: e in rest <==> e in s && !Follower(r, events, e)
  {
    hide Follower, FoldRow;
    missed, rest := Filter(s, Followers(r, events)), Filter(s, Others(r, events));
    SplitPermutes(s, Followers(r, events), Others(r, events));
    forall e ensures (e in missed <==> e in s && Follower(r, events, e)) && (e in rest <==> e in s && !Follower(r, events, e)) {
      FilterMember(s, Followers(r, events), e);
      FilterMember(s, Others(r, events), e);
    }
    AllMissed(r, events, missed);
  }

  /** An order in which nothing moves the row. */
  lemma StayOrder(r: Subscriber, events: seq<Event>) returns (order: seq<Event>)
    requires CanStay(r, events)
    ensures multiset(order) == multiset(events)
    ensures FoldRow(r, order).status == r.status && FoldRow(r, order).updatedAt == r.updatedAt
  {
    hide FoldRow, Follower, Matches, Overwrites;
    var missed, rest := MissedFirst(r, events, events);
    order := missed + rest;
    QuietRest(r, missed, rest, events);
  }

  /** A row an event finds and can overwrite takes its word. */
  lemma MoverDecides(r: Subscriber, pre: seq<Event>, e: Event)
    requires Matches(Stamp(FoldRow(r, pre), e), e) && Overwrites(FoldRow(r, pre).updatedAt, TimeOf(e))
    ensures Some(FoldRow(r, pre + [e]).status) == Verdict(e) && FoldRow(r, pre + [e]).updatedAt == TimeOf(e)
  {
    assert (pre + [e])[..|pre|] == pre;
  }

  /** An event that always finds the row and can decide it, with a time: it goes first. */
  lemma FirstDecides(r: Subscriber, events: seq<Event>, e: Event) returns (order: seq<Event>)
    requires CanDecide(r, events, e) && Matches(r, e) && TimeOf(e).Some?
    ensures multiset(order) == multiset(events)
    ensures Some(FoldRow(r, order).status) == Verdict(e) && FoldRow(r, order).updatedAt == TimeOf(e)
  {
    var others := Without(events, e);
    SubEvents(events, others, e);
    hide FoldRow, Matches, Verdict, FoundBy, Stamps;
    var missed, rest := MissedFirst(r, events, others);
    FoldAgreement(r, missed);
    WhoMatches(r, missed, r, e);
    MoverDecides(r, missed, e);
    order := missed + [e] + rest;
    QuietRest(r, missed + [e], rest, events);
  }

  lemma SubEvents(events: seq<Event>, others: seq<Event>, e: Event)
    requires multiset(events) == multiset(others) + multiset{e}
    ensures e in events && forall x :: x in others ==> x in events
    ensures forall x :: x in events ==> x in others || x == e
  {
    assert e in multiset(events);
    forall x ensures (x in others ==> x in events) && (x in events ==> x in others || x == e) {
      assert x in others <==> x in multiset(others);
      assert x in events <==> x in multiset(events);
    }
  }

  /** A follower with a time that can decide the row: right behind a licence event, all other followers before. */
  lemma FollowerDecides(r: Subscriber, events: seq<Event>, e: Event) returns (order: seq<Event>)
    requires CanDecide(r, events, e) && !Matches(r, e) && TimeOf(e).Some?
    ensures multiset(order) == multiset(events)
    ensures Some(FoldRow(r, order).status) == Verdict(e) && FoldRow(r, order).updatedAt == TimeOf(e)
  {
    hide FoldRow, Matches, Verdict, FoundBy, Stamps, CanDecide, Follower;
    var g := PickLicence(r, events, e);
    var others := Without(events, e);
    SubEvents(events, others, e);
    var rest0 := Without(others, g);
    SubEvents(others, rest0, g);
    var missed, rest := MissedFirst(r, events, rest0);
    var pre := missed + [g];
    LicenceThenFollower(r, missed, g, e);
    MoverDecides(r, pre, e);
    order := pre + [e] + rest;
    LaterAreOlder(r, events, e);
    QuietRest(r, pre + [e], rest, events);
  }

  lemma LaterAreOlder(r: Subscriber, events: seq<Event>, e: Event)
    requires CanDecide(r, events, e) && TimeOf(e).Some?
    ensures Overwrites(r.updatedAt, TimeOf(e))
    ensures forall h :: h in events && Matches(r, h) ==> !Overwrites(TimeOf(e), TimeOf(h))
  {
  }

  lemma PickLicence(r: Subscriber, events: seq<Event>, e: Event) returns (g: Event)
    requires CanDecide(r, events, e) && !Matches(r, e) && TimeOf(e).Some?
    ensures e in events && g in events && g != e && FoundBy(r, g, e) && Overwrites(r.updatedAt, TimeOf(e))
    ensures Matches(r, g) ==> AtMost(TimeOf(g), TimeOf(e)) && TimeOf(g) != TimeOf(e)
  {
    hide Matches;
    g :| g in events && FoundBy(r, g, e) && !(TimeOf(e).Some? && Matches(r, g) && TimeOf(g) == TimeOf(e));
    StampersMatchDirectly(r, e);
  }

  lemma LicenceThenFollower(r: Subscriber, missed: seq<Event>, g: Event, e: Event)
    requires FoldRow(r, missed) == r && FoundBy(r, g, e) && Overwrites(r.updatedAt, TimeOf(e)) && TimeOf(e).Some?
    requires Matches(r, g) ==> AtMost(TimeOf(g), TimeOf(e)) && TimeOf(g) != TimeOf(e)
    ensures var t := FoldRow(r, missed + [g]);
            Matches(Stamp(t, e), e) && Overwrites(t.updatedAt, TimeOf(e))
  {
    assert (missed + [g])[..|missed|] == missed;
    StampersMatchDirectly(r, g);
    var t := ApplyRow(r, g);
    MatchesAlike(t, Stamp(r, g), e);
    assert Stamp(t, e) == t;
  }

  /** Without times the last event decides, and all followers before the licence events are missed. */
  lemma LastDecides(r: Subscriber, events: seq<Event>, e: Event) returns (order: seq<Event>)
    requires OneAgreement(r, events) && CanDecide(r, events, e) && TimeOf(e).None?
    ensures multiset(order) == multiset(events)
    ensures Some(FoldRow(r, order).status) == Verdict(e) && FoldRow(r, order).updatedAt == TimeOf(e)
  {
    var others := Without(events, e);
    SubEvents(events, others, e);
    var missed, rest := MissedFirst(r, events, others);
    var pre := missed + rest;
    FoldAgreement(r, pre);
    var t := FoldRow(r, pre);
    hide FoldRow;
    TimelessRest(r, missed, rest, events);
    assert Matches(Stamp(t, e), e) by {
      if Matches(r, e) {
        WhoMatches(r, pre, t, e);
      } else {
        var g :| g in events && FoundBy(r, g, e);
        StampersMatchDirectly(r, g);
        StampersMatchDirectly(r, e);
        assert !Follower(r, events, g) by { StampersAreNoFollowers(r, events, g); }
        assert g in pre;
        FollowerFinds(r, events, pre, t, g, e);
      }
    }
    MoverDecides(r, pre, e);
    order := pre + [e];
  }

  lemma StampersAreNoFollowers(r: Subscriber, events: seq<Event>, g: Event)
    requires Stamps(r, g)
    ensures !Follower(r, events, g)
  {
    StampersMatchDirectly(r, g);
  }

  lemma FollowerFinds(r: Subscriber, events: seq<Event>, pre: seq<Event>, t: Subscriber, g: Event, e: Event)
    requires OneAgreement(r, events) && AgreementFrom(r, pre, t) && g in pre && FoundBy(r, g, e)
    requires forall x :: x in pre ==> x in events
    ensures Matches(Stamp(t, e), e)
  {
    assert t.agreement != r.agreement;
    var h :| h in pre && Stamps(r, h) && t.agreement == h.agreement;
    assert h.agreement == g.agreement;
    MatchesAlike(t, Stamp(r, g), e);
    assert Stamp(t, e) == t;
  }

  lemma DecideOrder(r: Subscriber, events: seq<Event>, e: Event) returns (order: seq<Event>)
    requires OneAgreement(r, events) && CanDecide(r, events, e)
    ensures multiset(order) == multiset(events)
    ensures Some(FoldRow(r, order).status) == Verdict(e) && FoldRow(r, order).updatedAt == TimeOf(e)
  {
    hide FoldRow, Verdict, Matches, OneAgreement;
    if TimeOf(e).None? {
      order := LastDecides(r, events, e);
    } else if Matches(r, e) {
      order := FirstDecides(r, events, e);
    } else {
      order := FollowerDecides(r, events, e);
    }
  }

  lemma {:induction false} AgreementStays(r: Subscriber, events: seq<Event>)
    requires r.agreement.Some?
    ensures FoldRow(r, events).agreement == r.agreement
  {
    if events != [] {
      AgreementStays(r, events[..|events| - 1]);
    }
  }

  /** The first licence event gives the row its agreement for good. */
  lemma StampOrder(r: Subscriber, events: seq<Event>, e: Event) returns (order: seq<Event>)
    requires e in events && Stamps(r, e)
    ensures multiset(order) == multiset(events) && FoldRow(r, order).agreement == e.agreement
  {
    var rest := Without(events, e);
    order := [e] + rest;
    FoldAppend(r, [e], rest);
    assert [e][..0] == [];
    assert FoldRow(r, [e]) == ApplyRow(r, e);
    AgreementStays(FoldRow(r, [e]), rest);
  }

  /** A contested row can end in two ways, depending on the order alone. */
  lemma ContestedDiverges(r: Subscriber, events: seq<Event>) returns (a: seq<Event>, b: seq<Event>)
    requires Contested(r, events)
    ensures multiset(a) == multiset(events) == multiset(b)
    ensures FoldRow(r, a) != FoldRow(r, b)
  {
    hide FoldRow, Matches, Verdict, CanStay, CanDecide;
    if !OneAgreement(r, events) {
      var e, f :| e in events && f in events && Stamps(r, e) && Stamps(r, f) && e.agreement != f.agreement;
      a := StampOrder(r, events, e);
      b := StampOrder(r, events, f);
    } else if e, f :| CanDecide(r, events, e) && CanDecide(r, events, f) && Differ(e, f) {
      a := DecideOrder(r, events, e);
      b := DecideOrder(r, events, f);
    } else {
      var e :| CanDecide(r, events, e) && (Verdict(e) != Some(r.status) || TimeOf(e) != r.updatedAt);
      a := DecideOrder(r, events, e);
      b := StayOrder(r, events);
    }
  }

  /** The order of delivery decides a row exactly when it is contested. */
  lemma OrderMatters(r: Subscriber, events: seq<Event>)
    ensures Contested(r, events) <==> exists s :: multiset(s) == multiset(events) && FoldRow(r, s) != FoldRow(r, events)
  {
    hide FoldRow, Contested;
    if Contested(r, events) {
      var a, b := ContestedDiverges(r, events);
      assert FoldRow(r, a) != FoldRow(r, events) || FoldRow(r, b) != FoldRow(r, events);
    }
    if s :| multiset(s) == multiset(events) && FoldRow(r, s) != FoldRow(r, events) {
      SameMultiset(s, events);
      if !Contested(r, events) {
        UncontestedConverges(r, events, s);
      }
    }
  }

  /** For a row whose agreement is fixed the contest is a tie: two latest events that disagree. */
  ghost predicate Tied(r: Subscriber, events: seq<Event>, e: Event, f: Event) {
    && e in events && f in events && Matches(r, e) && Matches(r, f)
    && TimeOf(e) == TimeOf(f) && Verdict(e) != Verdict(f) && Overwrites(r.updatedAt, TimeOf(e))
    && forall g :: g in events && Matches(r, g) ==> AtMost(TimeOf(g), TimeOf(e))
  }

  lemma FixedAgreementContest(r: Subscriber, events: seq<Event>)
    requires r.agreement.Some? || forall g :: g in events ==> !Stamps(r, g)
    ensures Contested(r, events) <==> exists e, f :: Tied(r, events, e, f)
  {
    hide Verdict, Matches, TimeOf;
    forall e ensures CanDecide(r, events, e) <==>
        e in events && Matches(r, e) && Overwrites(r.updatedAt, TimeOf(e))
        && forall g :: g in events && Matches(r, g) ==> AtMost(TimeOf(g), TimeOf(e))
    {
    }
    if e, f :| Tied(r, events, e, f) {
      assert CanDecide(r, events, e) && CanDecide(r, events, f) && Differ(e, f);
    }
    if Contested(r, events) {
      var e, f :| CanDecide(r, events, e) && CanDecide(r, events, f) && Differ(e, f);
      assert Tied(r, events, e, f);
    }
  }

  // ----- events that come too early -----

  predicate Stamped(r: Subscriber, events: seq<Event>) {
    exists i :: 0 <= i < |events| && Stamps(r, events[i])
  }

  /** The events without those that need the agreement and come before any licence event carrying it. */
  ghost function Heard(r: Subscriber, events: seq<Event>, agreement: string): seq<Event> {
    if events == [] then []
    else
      var init, last := events[..|events| - 1], events[|events| - 1];
      if !Stamped(r, events) && !Matches(r, last) && Matches(r.(agreement := Some(agreement)), last)
      then Heard(r, init, agreement)
      else Heard(r, init, agreement) + [last]
  }

  /**
   Over whole histories, an event that comes before its licence event counts as if it had never
   been sent, and all others count as if the row had carried the agreement from the start.
   */
  lemma {:induction false} EarlyAsIfNeverSent(r: Subscriber, events: seq<Event>, agreement: string)
    requires r.agreement.None?
    requires forall g :: g in events && Stamps(r, g) ==> g.agreement == Some(agreement)
    ensures FoldRow(r, events).(agreement := Some(agreement))
         == FoldRow(r.(agreement := Some(agreement)), Heard(r, events, agreement))
    ensures FoldRow(r, events).agreement == if Stamped(r, events) then Some(agreement) else None
  {
    if events != [] {
      var init, last := events[..|events| - 1], events[|events| - 1];
      assert events == init + [last];
      EarlyAsIfNeverSent(r, init, agreement);
      FoldAgreement(r, init);
      var heard := Heard(r, init, agreement);
      assert (heard + [last])[..|heard|] == heard;
      StampedMore(r, init, last);
      EarlyStep(r, FoldRow(r, init), agreement, Stamped(r, init), last);
    }
  }

  lemma StampedMore(r: Subscriber, init: seq<Event>, last: Event)
    ensures Stamped(r, init + [last]) <==> Stamped(r, init) || Stamps(r, last)
  {
    var events := init + [last];
    if i :| 0 <= i < |init| && Stamps(r, init[i]) {
      assert Stamps(r, events[i]);
    }
    if Stamps(r, last) {
      assert Stamps(r, events[|init|]);
    }
  }

  lemma EarlyStep(r: Subscriber, t: Subscriber, agreement: string, stamped: bool, last: Event)
    requires r.agreement.None? && SameSubject(t, r) && t.agreement == if stamped then Some(agreement) else None
    requires Stamps(r, last) ==> last.agreement == Some(agreement)
    ensures var u, given := t.(agreement := Some(agreement)), r.(agreement := Some(agreement));
            var after := ApplyRow(t, last);
            && SameSubject(after, r)
            && after.agreement == (if stamped || Stamps(r, last) then Some(agreement) else None)
            && after.(agreement := Some(agreement))
               == if !stamped && !Stamps(r, last) && !Matches(r, last) && Matches(given, last) then u else ApplyRow(u, last)
  {
    var given := r.(agreement := Some(agreement));
    MatchesAlike(t, r, last);
    StampsAlike(t, r, last);
    MatchesAlike(t.(agreement := Some(agreement)), given, last);
    if !stamped && !Stamps(r, last) && !Matches(r, last) && !Matches(given, last) {
      assert !Matches(t, last);
    }
  }

  /** So with the licence event ahead of everything that needs it, the row ends as one with the agreement does. */
  lemma LicenceFirst(r: Subscriber, events: seq<Event>, agreement: string)
    requires r.agreement.None? && Stamped(r, events)
    requires forall g :: g in events && Stamps(r, g) ==> g.agreement == Some(agreement)
    requires Heard(r, events, agreement) == events
    ensures FoldRow(r, events) == FoldRow(r.(agreement := Some(agreement)), events)
  {
    EarlyAsIfNeverSent(r, events, agreement);
  }

  /**
   The smallest case: an agreement event that comes before the licence event carrying the same
   agreement misses the row, and the order makes no difference exactly when, after the licence
   event, the agreement event would change nothing.
   */
  lemma EarlyAgreementIsMissed(r: Subscriber, early: Event, licence: Event)
    requires r.agreement.None?
    requires early.Eb? && Verdict(early).Some? && Some(r.account) == early.acceptor && early.arn.None?
    requires early.product.None? || early.product == Some(r.product)
    requires licence.Eb? && Verdict(licence).Some? && Some(r.account) == licence.acceptor && ArnMatches(r, licence.arn)
    requires licence.product.None? || licence.product == Some(r.product)
    requires early.agreement.Some? && licence.agreement == early.agreement && Tail(licence.arn.value) != ""
    ensures var u := ApplyRow(r, licence);
            && ApplyRow(ApplyRow(r, early), licence) == u
            && (ApplyRow(u, early) == u <==>
                !Overwrites(u.updatedAt, early.ts) || (u.status == Verdict(early).value && u.updatedAt == early.ts))
  {
    assert ApplyRow(r, early) == r;
  }

  /** So an agreement whose end arrives before its licence stays active, although the end is later. */
  lemma CancelledStaysActive(r: Subscriber, ended: Event, licence: Event)
    requires r.agreement.None? && r.updatedAt.None?
    requires ended.Eb? && Verdict(ended) == Some(Cancelled) && Some(r.account) == ended.acceptor
    requires ended.arn.None? && ended.product.None?
    requires licence.Eb? && Verdict(licence) == Some(Active) && Some(r.account) == licence.acceptor
    requires licence.product == Some(r.product) && ArnMatches(r, licence.arn) && Tail(licence.arn.value) != ""
    requires ended.agreement.Some? && licence.agreement == ended.agreement
    requires licence.ts.Some? && ended.ts.Some? && licence.ts.value < ended.ts.value
    ensures ApplyRow(ApplyRow(r, licence), ended).status == Cancelled
    ensures ApplyRow(ApplyRow(r, ended), licence).status == Active
  {
    hide Verdict, Tail;
  }
}
