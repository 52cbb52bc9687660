/**
 One run of agents/reply_radar.py: filter the posts read, order them by views, and draft
 replies under the caps per day and per author, with every candidate accounted for.
 */
module Radar {
  import opened Common
  import opened StableSort
  import opened RadarClaims

  const DAILY_MAX := 3
  const PER_AUTHOR_PER_DAY := 2
  const SEEN_KEPT := 2000
  const LOOKBACK := 4 * 3600  // seconds
  const LOOKBACK_OVERLAP := 30 * 60
  const LOOKBACK_MAX := 15 * 3600
  const PROMPT_DAYS := 60

  type Id = string
  type Author = string  // lower case, empty when there is none
  type Day = int

  /** The UTC day of a time in seconds. */
  function DayOf(time: int): Day {
    time / 86400
  }

  datatype Source = TargetList | Mention | Search | OtherSource

  /** A post as read, with its id as a number and what the vocabularies say about its text. */
  datatype Post = Post(id: Id, num: nat, author: Author, source: Source, views: int, tier: int,
                       ours: bool, created: Option<int>, retweet: bool, wordless: bool, ad: bool,
                       lang: Option<string>, onTopic: bool)

  datatype Drop = SeenBefore | Ours | Older | NoText | PureAd | Foreign

  function DropReason(t: Post, seen: seq<Id>, since: int): Option<Drop> {
    if t.id in seen then Some(SeenBefore)
    else if t.ours then Some(Ours)
    else if t.created.Some? && t.created.value < since then Some(Older)
    else if t.retweet then Some(NoText)
    else if t.lang == Some("zxx") || t.wordless then Some(NoText)
    else if t.ad then Some(PureAd)
    else if t.lang !in {None, Some("en"), Some("und")} && !t.onTopic then Some(Foreign)
    else None
  }

  function IsCandidate(seen: seq<Id>, since: int): Post -> bool {
    (t: Post) => DropReason(t, seen, since).None?
  }

  /**
   A post worth an answer: new to us, somebody else's, not from before the window, no retweet,
   with words of its own, no advertisement, and in English, in no known language or on our subject.
   */
  predicate Worthwhile(t: Post, seen: seq<Id>, since: int) {
    && t.id !in seen && !t.ours && (t.created.Some? ==> t.created.value >= since)
    && !t.retweet && !t.wordless && t.lang != Some("zxx") && !t.ad
    && (t.lang.None? || t.lang == Some("en") || t.lang == Some("und") || t.onTopic)
  }

  /** Posts turned away for a reason: bookkeeping before words, words before sales, sales before language. */
  function TurnedAway(seen: seq<Id>, since: int, why: Drop): Post -> bool {
    (t: Post) =>
      var kept := t.id !in seen;
      var others := kept && !t.ours;
      var timely := others && (t.created.Some? ==> t.created.value >= since);
      var worded := timely && !t.retweet && !t.wordless && t.lang != Some("zxx");
      match why
      case SeenBefore => t.id in seen
      case Ours => kept && t.ours
      case Older => others && t.created.Some? && t.created.value < since
      case NoText => timely && (t.retweet || t.wordless || t.lang == Some("zxx"))
      case PureAd => worded && t.ad
      case Foreign => worded && !t.ad && t.lang.Some? && t.lang != Some("en") && t.lang != Some("und") && !t.onTopic
  }

  lemma CandidateMeans(t: Post, seen: seq<Id>, since: int)
    ensures IsCandidate(seen, since)(t) <==> Worthwhile(t, seen, since)
    ensures forall why :: DroppedFor(seen, since, why)(t) <==> TurnedAway(seen, since, why)(t)
  {
  }

  lemma WhoIsCandidate(fetched: seq<Post>, seen: seq<Id>, since: int)
    ensures forall t :: t in Filter(fetched, IsCandidate(seen, since)) <==> t in fetched && Worthwhile(t, seen, since)
    ensures forall why :: |Filter(fetched, DroppedFor(seen, since, why))| == |Filter(fetched, TurnedAway(seen, since, why))|
  {
    hide Worthwhile, TurnedAway, DroppedFor, IsCandidate;
    forall t ensures t in Filter(fetched, IsCandidate(seen, since)) <==> t in fetched && Worthwhile(t, seen, since) {
      FilterMember(fetched, IsCandidate(seen, since), t);
      CandidateMeans(t, seen, since);
    }
    forall why ensures |Filter(fetched, DroppedFor(seen, since, why))| == |Filter(fetched, TurnedAway(seen, since, why))| {
      forall t | t in fetched ensures DroppedFor(seen, since, why)(t) == TurnedAway(seen, since, why)(t) {
        CandidateMeans(t, seen, since);
      }
      FilterAgree(fetched, DroppedFor(seen, since, why), TurnedAway(seen, since, why));
    }
  }

  // ----- order -----

  function SourceRank(s: Source): nat {
    match s
    case TargetList => 0
    case Mention => 1
    case Search => 2
    case OtherSource => 3
  }

  predicate RanksBefore(x: Post, y: Post) {
    x.tier < y.tier
    || (x.tier == y.tier
        && (SourceRank(x.source) < SourceRank(y.source)
            || (SourceRank(x.source) == SourceRank(y.source) && x.views > y.views)))
  }

  predicate MoreViews(x: Post, y: Post) {
    x.views > y.views
  }

  function ByViews(posts: seq<Post>): seq<Post> {
    Sort(Sort(posts, RanksBefore), MoreViews)
  }

  // ----- state and counters -----

  /** A day's counts for the prompt in use. */
  datatype PromptRow = PromptRow(candidates: nat, drafts: nat, passed: nat, runs: nat)

  /** `lastRunAt` is where the next window starts, `listSince` the newest post read from the list. */
  datatype State = State(seen: seq<Id>, perDay: map<Day, nat>, perAuthor: map<Day, map<Author, nat>>, claims: Claims,
                         lastRunAt: Option<int>, listSince: Option<nat>, prompts: map<Day, PromptRow>)

  function Max(a: int, b: int): int {
    if a < b then b else a
  }

  /** The start of the window a run at `now` reads. */
  function Since(st: State, now: int): int {
    if st.lastRunAt.None? then now - LOOKBACK
    else Max(st.lastRunAt.value - LOOKBACK_OVERLAP, now - LOOKBACK_MAX)
  }

  /** The newest id read from the list, if any was. */
  function NewestListId(fetched: seq<Post>): Option<nat> {
    if fetched == [] then None
    else
      var rest := NewestListId(fetched[..|fetched| - 1]);
      var t := fetched[|fetched| - 1];
      if t.source == TargetList && (rest.None? || rest.value < t.num) then Some(t.num) else rest
  }

  function PromptOn(st: State, day: Day): PromptRow {
    if day in st.prompts then st.prompts[day] else PromptRow(0, 0, 0, 0)
  }

  function CountPrompt(st: State, day: Day, candidates: nat, drafts: nat, passed: nat): State {
    var row := PromptOn(st, day);
    var prompts := st.prompts[day := PromptRow(row.candidates + candidates, row.drafts + drafts, row.passed + passed, row.runs + 1)];
    st.(prompts := map k | k in prompts && k >= day - PROMPT_DAYS :: prompts[k])
  }

  function DraftedOn(st: State, day: Day): nat {
    if day in st.perDay then st.perDay[day] else 0
  }

  function DraftsFor(st: State, day: Day, a: Author): nat {
    if day in st.perAuthor && a in st.perAuthor[day] then st.perAuthor[day][a] else 0
  }

  function LastSeen(seen: seq<Id>): seq<Id> {
    if |seen| <= SEEN_KEPT then seen else seen[|seen| - SEEN_KEPT..]
  }

  function MarkSeen(st: State, id: Id): State {
    st.(seen := LastSeen(st.seen + [id]))
  }

  function CountDraft(st: State, day: Day): State {
    var perDay := st.perDay[day := DraftedOn(st, day) + 1];
    st.(perDay := map k | k in perDay && k >= day :: perDay[k])
  }

  function CountAuthor(st: State, a: Author, day: Day): State {
    if a == "" then st
    else
      var today := if day in st.perAuthor then st.perAuthor[day] else map[];
      var perAuthor := st.perAuthor[day := today[a := DraftsFor(st, day, a) + 1]];
      st.(perAuthor := map k | k in perAuthor && k >= day :: perAuthor[k])
  }

  predicate AuthorCapped(st: State, t: Post, used: set<Author>, today: Day) {
    t.source != Mention && t.author != ""
    && (t.author in used || DraftsFor(st, today, t.author) >= PER_AUTHOR_PER_DAY)
  }

  // ----- one run -----

  datatype Answer = Refused(kind: string) | Text(marks: seq<Mark>, passes: bool)

  /** A refusal by the model settles the post; a failure on our side does not. */
  predicate IsFinal(kind: string) {
    kind !in {"truncated", "api-error", "no-key", "empty", "retired"}
  }

  datatype Reason = AuthorCap | ClaimClash | DailyCap | VoiceGate | NotDrafted(kind: string)

  /** What a missing or unreadable state file is read as. */
  const BLANK := State([], map[], map[], Window(map[]), None, None, map[])

  /**
   A run may die once it has sent some drafts, or may not be let write its state, which both leave
   the file as it was; or the write breaks off, which leaves a file that cannot be read.
   */
  datatype Ending = Completes | Dies(drafts: nat) | Tears

  /**
   `answers` and `clock` give, by position in the drafting order, what the model and the gate say
   and when.
   */
  datatype Session = Session(start: int, finish: int, limit: int, dry: bool, paused: bool, fetched: seq<Post>,
                             answers: nat -> Answer, clock: nat -> int, blocked: set<Mark>, ends: Ending)

  function Today(r: Session): Day {
    DayOf(r.start)
  }

  datatype Draft = Draft(post: Post, day: Day, at: int, marks: seq<Mark>, passed: bool)

  datatype Progress = Progress(state: State, made: nat, passed: nat, reasons: multiset<Reason>, used: set<Author>, drafts: seq<Draft>)

  function Skip(p: Progress, why: Reason, id: Id, settle: bool): Progress {
    p.(reasons := p.reasons + multiset{why}, state := if settle then MarkSeen(p.state, id) else p.state)
  }

  /** A draft that passes spends its claims. */
  function Spend(st: State, answer: Answer, at: int): State
    requires answer.Text?
  {
    if answer.passes then st.(claims := Remember(st.claims, answer.marks, at)) else st
  }

  /** A draft that was sent settles its post and counts for the day and the author. */
  function Book(st: State, t: Post, today: Day): State {
    CountAuthor(CountDraft(MarkSeen(st, t.id), today), t.author, today)
  }

  lemma BookKeeps(st: State, t: Post, today: Day)
    ensures Book(st, t, today) == st.(seen := MarkSeen(st, t.id).seen, perDay := Book(st, t, today).perDay,
                                      perAuthor := Book(st, t, today).perAuthor)
  {
  }

  function Make(p: Progress, t: Post, i: nat, r: Session): Progress
    requires r.answers(i).Text?
  {
    var answer, at := r.answers(i), r.clock(i);
    var st := Spend(p.state, answer, at);
    Progress(if r.dry then st else Book(st, t, Today(r)),
             p.made + 1,
             if answer.passes then p.passed + 1 else p.passed,
             if answer.passes then p.reasons else p.reasons + multiset{VoiceGate},
             p.used + {t.author},
             p.drafts + [Draft(t, Today(r), at, answer.marks, answer.passes)])
  }

  predicate Clashes(p: Progress, i: nat, r: Session)
    requires r.answers(i).Text?
  {
    Conflict(p.state.claims, r.answers(i).marks, r.start, r.clock(i), r.blocked)
  }

  function Visit(p: Progress, t: Post, i: nat, r: Session): Progress {
    if AuthorCapped(p.state, t, p.used, Today(r)) then Skip(p, AuthorCap, t.id, false)
    else if r.answers(i).Refused? then
      Skip(p, NotDrafted(r.answers(i).kind), t.id, !r.dry && IsFinal(r.answers(i).kind))
    else if Clashes(p, i, r) then Skip(p, ClaimClash, t.id, !r.dry)
    else Make(p, t, i, r)
  }

  function Lapse(p: Progress, rest: seq<Post>, dry: bool): Progress
    decreases |rest|
  {
    if rest == [] then p else Lapse(Skip(p, DailyCap, rest[0].id, !dry), rest[1..], dry)
  }

  function Walk(p: Progress, ordered: seq<Post>, i: nat, room: int, r: Session): Progress
    requires i <= |ordered|
    decreases |ordered| - i
  {
    if i == |ordered| then p
    else if p.made >= room then Lapse(p, ordered[i..], r.dry)
    else Walk(Visit(p, ordered[i], i, r), ordered, i + 1, room, r)
  }

  function Room(st: State, r: Session): int {
    var left := if DAILY_MAX > DraftedOn(st, Today(r)) then DAILY_MAX - DraftedOn(st, Today(r)) else 0;
    if r.limit < left then r.limit else left
  }

  function Begin(st: State): Progress {
    Progress(st, 0, 0, multiset{}, {}, [])
  }

  function Candidates(st: State, r: Session): seq<Post> {
    Filter(r.fetched, IsCandidate(st.seen, Since(st, r.start)))
  }

  /** A run that does not get to drafting: reads paused, the day full, or nothing to answer. */
  predicate Idle(st: State, r: Session) {
    r.paused || Room(st, r) == 0 || Candidates(st, r) == []
  }

  /** The posts a run drafts for or gives a reason for. */
  function Offered(st: State, r: Session): seq<Post> {
    if Idle(st, r) then [] else ByViews(Candidates(st, r))
  }

  /** The state once the list was read; a run that is paused or has no room reads nothing. */
  function Opened(st: State, r: Session): State {
    if r.paused || Room(st, r) == 0 || NewestListId(r.fetched).None? then st
    else st.(listSince := NewestListId(r.fetched))
  }

  function Drafting(st: State, r: Session): Progress {
    Walk(Begin(Opened(st, r)), Offered(st, r), 0, Room(st, r), r)
  }

  /** What a run writes at its end. Without drafting the time of the run is written in a dry run as well. */
  function Closing(st: State, r: Session, p: Progress): State {
    if Idle(st, r) then p.state.(lastRunAt := Some(r.start))
    else
      var timed := if r.dry then p.state else p.state.(lastRunAt := Some(r.start));
      CountPrompt(timed, Today(r), |Candidates(st, r)|, p.made, p.passed)
  }

  function RunOnce(st: State, r: Session): Progress {
    var p := Drafting(st, r);
    p.(state := Closing(st, r, p))
  }

  /** The state file afterwards. */
  function Saved(st: State, r: Session): State {
    match r.ends
    case Completes => RunOnce(st, r).state
    case Dies(_) => st
    case Tears => BLANK
  }

  /** The drafts of a run, up to its end. */
  function Drafts(st: State, r: Session): seq<Draft> {
    var drafts := RunOnce(st, r).drafts;
    if r.ends.Dies? && r.ends.drafts < |drafts| then drafts[..r.ends.drafts] else drafts
  }

  // ----- the program -----

  class ReplyRadar {
    var state: State
    var made: nat
    var passed: nat
    var reasons: multiset<Reason>
    var used: set<Author>
    var drafts: seq<Draft>

    /** The run so far. */
    ghost function Now(): Progress
      reads this
    {
      Progress(state, made, passed, reasons, used, drafts)
    }

    constructor (state: State)
      ensures this.state == state
    {
      this.state := state;
      made, passed, reasons, used, drafts := 0, 0, multiset{}, {}, [];
    }

    method Settle(id: Id)
      modifies this`state
      ensures state == MarkSeen(old(state), id)
    {
      var seen := state.seen + [id];
      if |seen| > SEEN_KEPT {
        seen := seen[|seen| - SEEN_KEPT..];
      }
      state := state.(seen := seen);
    }

    method BookDraft(t: Post, today: Day)
      modifies this`state
      ensures state == Book(old(state), t, today)
    {
      hide MarkSeen;
      Settle(t.id);
      var perDay, perAuthor := state.perDay, state.perAuthor;
      perDay := perDay[today := (if today in perDay then perDay[today] else 0) + 1];
      perDay := map k | k in perDay && k >= today :: perDay[k];
      state := state.(perDay := perDay);
      if t.author != "" {
        var day := if today in perAuthor then perAuthor[today] else map[];
        var n := if t.author in day then day[t.author] else 0;
        perAuthor := perAuthor[today := day[t.author := n + 1]];
        perAuthor := map k | k in perAuthor && k >= today :: perAuthor[k];
        state := state.(perAuthor := perAuthor);
      }
    }

    method NewestId(fetched: seq<Post>) returns (newest: Option<nat>)
      ensures newest == NewestListId(fetched)
    {
      newest := None;
      var i := 0;
      while i < |fetched|
        invariant 0 <= i <= |fetched| && newest == NewestListId(fetched[..i])
      {
        assert fetched[..i + 1][..i] == fetched[..i];
        if fetched[i].source == TargetList && (newest.None? || newest.value < fetched[i].num) {
          newest := Some(fetched[i].num);
        }
        i := i + 1;
      }
      assert fetched[..i] == fetched;
    }

    /** What the filter did: one count per reason. */
    method SelectCandidates(fetched: seq<Post>, since: int) returns (candidates: seq<Post>, dropped: multiset<Drop>)
      ensures candidates == Filter(fetched, IsCandidate(state.seen, since))
      ensures |fetched| == |candidates| + |dropped|
      ensures forall why :: dropped[why] == |Filter(fetched, DroppedFor(state.seen, since, why))|
      ensures forall t :: t in candidates <==> t in fetched && Worthwhile(t, state.seen, since)
      ensures forall why :: dropped[why] == |Filter(fetched, TurnedAway(state.seen, since, why))|
    {
      candidates, dropped := [], multiset{};
      var i := 0;
      while i < |fetched|
        invariant 0 <= i <= |fetched|
        invariant candidates == Filter(fetched[..i], IsCandidate(state.seen, since))
        invariant i == |candidates| + |dropped|
        invariant forall why :: dropped[why] == |Filter(fetched[..i], DroppedFor(state.seen, since, why))|
      {
        hide Filter, DropReason;
        var why := DropReason(fetched[i], state.seen, since);
        FilterNext(fetched, i, IsCandidate(state.seen, since));
        forall w {
          FilterNext(fetched, i, DroppedFor(state.seen, since, w));
        }
        if why.None? {
          candidates := candidates + [fetched[i]];
        } else {
          dropped := dropped + multiset{why.value};
        }
        i := i + 1;
      }
      assert fetched[..i] == fetched;
      WhoIsCandidate(fetched, state.seen, since);
    }

    method LapseRest(rest: seq<Post>, dry: bool)
      modifies this`state, this`reasons
      ensures Now() == Lapse(old(Now()), rest, dry)
    {
      hide MarkSeen;
      var i := 0;
      while i < |rest|
        invariant 0 <= i <= |rest|
        invariant Lapse(Now(), rest[i..], dry) == Lapse(old(Now()), rest, dry)
      {
        assert rest[i..][1..] == rest[i + 1..];
        reasons := reasons + multiset{DailyCap};
        if !dry {
          Settle(rest[i].id);
        }
        i := i + 1;
      }
    }

    /** A draft goes out: its claims, its counts, and outside a dry run its bookkeeping. */
    method MakeDraft(t: Post, i: nat, r: Session)
      requires r.answers(i).Text?
      modifies this
      ensures Now() == Make(old(Now()), t, i, r)
    {
      hide Book, Remember;
      var answer := r.answers(i);
      made, drafts := made + 1, drafts + [Draft(t, Today(r), r.clock(i), answer.marks, answer.passes)];
      used := used + {t.author};
      if answer.passes {
        passed := passed + 1;
        state := state.(claims := Remember(state.claims, answer.marks, r.clock(i)));
      } else {
        reasons := reasons + multiset{VoiceGate};
      }
      if !r.dry {
        BookDraft(t, Today(r));
      }
    }

    /** One turn of the loop: skip the post with a reason, or draft for it. */
    method Consider(t: Post, i: nat, r: Session)
      modifies this
      ensures Now() == Visit(old(Now()), t, i, r)
    {
      hide MarkSeen, Make, Conflict, AuthorCapped, IsFinal;
      if AuthorCapped(state, t, used, Today(r)) {
        reasons := reasons + multiset{AuthorCap};
        return;
      }
      var answer := r.answers(i);
      if answer.Refused? {
        reasons := reasons + multiset{NotDrafted(answer.kind)};
        if !r.dry && IsFinal(answer.kind) {
          Settle(t.id);
        }
        return;
      }
      if Conflict(state.claims, answer.marks, r.start, r.clock(i), r.blocked) {
        reasons := reasons + multiset{ClaimClash};
        if !r.dry {
          Settle(t.id);
        }
        return;
      }
      MakeDraft(t, i, r);
    }

    method DraftReplies(ordered: seq<Post>, room: int, r: Session)
      modifies this
      ensures Now() == Walk(old(Now()), ordered, 0, room, r)
    {
      hide Visit, Lapse;
      var i := 0;
      while i < |ordered|
        invariant 0 <= i <= |ordered|
        invariant Walk(old(Now()), ordered, 0, room, r) == Walk(Now(), ordered, i, room, r)
      {
        if made >= room {
          LapseRest(ordered[i..], r.dry);
          return;
        }
        Consider(ordered[i], i, r);
        i := i + 1;
      }
    }

    /** A whole run, up to what it writes at its end. */
    method Run(r: Session)
      modifies this
      ensures Now() == RunOnce(old(state), r)
    {
      hide Walk, ByViews, CountPrompt, Since, NewestListId, Filter, Worthwhile, TurnedAway, DroppedFor;
      made, passed, reasons, used, drafts := 0, 0, multiset{}, {}, [];
      var before := state;
      NothingToWalk(Begin(before), Room(before, r), r);
      if r.paused || Room(before, r) == 0 {
        state := state.(lastRunAt := Some(r.start));
        return;
      }
      var newest := NewestId(r.fetched);
      if newest.Some? {
        state := state.(listSince := newest);
      }
      var candidates, dropped := SelectCandidates(r.fetched, Since(before, r.start));
      if |candidates| == 0 {
        NothingToWalk(Begin(Opened(before, r)), Room(before, r), r);
        state := state.(lastRunAt := Some(r.start));
        return;
      }
      DraftReplies(ByViews(candidates), Room(before, r), r);
      if !r.dry {
        state := state.(lastRunAt := Some(r.start));
      }
      state := CountPrompt(state, Today(r), |candidates|, made, passed);
    }
  }

  lemma NothingToWalk(p: Progress, room: int, r: Session)
    ensures Walk(p, [], 0, room, r) == p
  {
  }

  function DroppedFor(seen: seq<Id>, since: int, why: Drop): Post -> bool {
    (t: Post) => DropReason(t, seen, since) == Some(why)
  }

  lemma FilterNext(s: seq<Post>, i: nat, keep: Post -> bool)
    requires i < |s|
    ensures Filter(s[..i + 1], keep) == Filter(s[..i], keep) + (if keep(s[i]) then [s[i]] else [])
  {
    assert s[..i + 1] == s[..i] + [s[i]];
    FilterAppend(s[..i], [s[i]], keep);
    assert [s[i]][1..] == [];
  }
}
