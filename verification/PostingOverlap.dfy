/** The bound of the posting guards is met: for every k some run with k processes in flight makes 3 + k threads. */
module PostingOverlap {
  import opened Common
  import opened PostingCaps

  /** `n` processes one after the other, each with one counted thread, then k that start, pass the guard, and send. */
  function Storm(n: nat, launched: nat, cleared: nat, sent: nat, k: nat): seq<Step>
    decreases n, k - launched, k - cleared, k - sent
  {
    if n > 0 then [Launch(0)] + ([Guard(0, false)] + ([Send(0)] + ([NotePost(0, true)] + ([Die(0)] + Storm(n - 1, launched, cleared, sent, k)))))
    else if launched < k then [Launch(launched)] + Storm(0, launched + 1, cleared, sent, k)
    else if cleared < k then [Guard(cleared, false)] + Storm(0, launched, cleared + 1, sent, k)
    else if sent < k then [Send(sent)] + Storm(0, launched, cleared, sent + 1, k)
    else []
  }

  function Upto(k: nat): (r: set<Pid>)
    ensures forall p: Pid :: p in r <==> p < k
    ensures |r| == k
  {
    if k == 0 then {} else Upto(k - 1) + {k - 1}
  }

  /** Nobody has a number the schedule did not hand out, so at most k are in flight. */
  lemma FewInFlight(s: State, k: nat)
    requires forall p :: p in InFlight(s) ==> p < k
    ensures |InFlight(s)| <= k
  {
    SubsetSize(InFlight(s), Upto(k));
  }

  lemma Prepend(s: State, step: Step, rest: seq<Step>, k: nat)
    requires Can(s, step) && |InFlight(s)| <= k && Legal(Do(s, step), rest, k)
    ensures Legal(s, [step] + rest, k) && Run(s, [step] + rest, k) == Run(Do(s, step), rest, k)
  {
    hide Can, Do, InFlight;
    assert ([step] + rest)[1..] == rest;
  }

  /** The first `launched` processes run; of these the first `cleared` passed the guard and the first `sent` are out. */
  ghost predicate Stage(s: State, launched: nat, cleared: nat, sent: nat) {
    && sent <= cleared <= launched && (forall p: Pid :: p in s.procs <==> p < launched)
    && forall p :: p in s.procs ==>
         && s.procs[p].posts == 0
         && s.procs[p].phase == (if p < sent then Out(s.today) else if p < cleared then Cleared else Ready)
  }

  /** The counter of the day stands at three, and the guards still hold for everybody. */
  lemma {:induction false} AllSend(s: State, launched: nat, cleared: nat, sent: nat, k: nat)
    requires Stage(s, launched, cleared, sent) && launched <= k && At(s.days, s.today) == MAX_POSTS_PER_DAY - 1
    requires (cleared == 0 || launched == k) && (sent == 0 || cleared == k)
    ensures var steps := Storm(0, launched, cleared, sent, k);
            && Legal(s, steps, k) && Run(s, steps, k).lost == s.lost
            && At(Run(s, steps, k).sent, s.today) == At(s.sent, s.today) + (k - sent)
    decreases k - launched, k - cleared, k - sent
  {
    FewInFlight(s, k);
    hide Legal, Run;
    if launched < k {
      LaunchNext(s, launched);
      var rest := Storm(0, launched + 1, cleared, sent, k);
      AllSend(Do(s, Launch(launched)), launched + 1, cleared, sent, k);
      Prepend(s, Launch(launched), rest, k);
    } else if cleared < k {
      var rest := Storm(0, launched, cleared + 1, sent, k);
      AllSend(Do(s, Guard(cleared, false)), launched, cleared + 1, sent, k);
      Prepend(s, Guard(cleared, false), rest, k);
    } else if sent < k {
      var rest := Storm(0, launched, cleared, sent + 1, k);
      AllSend(Do(s, Send(sent)), launched, cleared, sent + 1, k);
      Prepend(s, Send(sent), rest, k);
    } else {
      NothingLeft(s, k);
    }
  }

  lemma LaunchNext(s: State, launched: nat)
    requires Stage(s, launched, 0, 0)
    ensures Can(s, Launch(launched)) && Stage(Do(s, Launch(launched)), launched + 1, 0, 0)
  {
  }

  lemma NothingLeft(s: State, k: nat)
    requires |InFlight(s)| <= k
    ensures Legal(s, [], k) && Run(s, [], k) == s
  {
  }

  /** One process alone: its thread goes out and is counted, and nothing of it is left. */
  lemma OneAlone(s: State, rest: seq<Step>, k: nat) returns (t: State)
    requires s.procs == map[] && At(s.days, s.today) < MAX_POSTS_PER_DAY && k > 0
    requires forall d :: d in s.days ==> d <= s.today
    ensures t == s.(days := Counted(s.days, s.today), sent := Add(s.sent, s.today))
    ensures At(t.days, s.today) == At(s.days, s.today) + 1 && At(t.sent, s.today) == At(s.sent, s.today) + 1
    ensures forall d :: d in t.days ==> d <= s.today
    ensures var steps := [Launch(0)] + ([Guard(0, false)] + ([Send(0)] + ([NotePost(0, true)] + ([Die(0)] + rest))));
            Legal(t, rest, k) ==> Legal(s, steps, k) && Run(s, steps, k) == Run(t, rest, k)
  {
    hide Counted, Add, Legal, Run;
    var s1 := Do(s, Launch(0));
    var s2 := Do(s1, Guard(0, false));
    var s3 := Do(s2, Send(0));
    var s4 := Do(s3, NotePost(0, true));
    t := Do(s4, Die(0));
    NoLater(s.days, s.today);
    TodayIsKept(s.days, s.today);
    AddsOne(s.sent, s.today);
    forall d | d in t.days ensures d <= s.today {
      if d != s.today {
        OthersAreKept(s.days, s.today, d);
      }
    }
    assert t.procs == map[];
    FewInFlight(s, 1);
    FewInFlight(s1, 1);
    FewInFlight(s2, 1);
    FewInFlight(s3, 1);
    FewInFlight(s4, 1);
    if Legal(t, rest, k) {
      hide Do;
      Prepend(s4, Die(0), rest, k);
      Prepend(s3, NotePost(0, true), [Die(0)] + rest, k);
      Prepend(s2, Send(0), [NotePost(0, true)] + ([Die(0)] + rest), k);
      Prepend(s1, Guard(0, false), [Send(0)] + ([NotePost(0, true)] + ([Die(0)] + rest)), k);
      Prepend(s, Launch(0), [Guard(0, false)] + ([Send(0)] + ([NotePost(0, true)] + ([Die(0)] + rest))), k);
    }
  }

  lemma {:induction false} CountThenStorm(s: State, n: nat, k: nat)
    requires s.procs == map[] && At(s.days, s.today) + n == MAX_POSTS_PER_DAY - 1 && k > 0
    requires forall d :: d in s.days ==> d <= s.today
    ensures var steps := Storm(n, 0, 0, 0, k);
            && Legal(s, steps, k) && Run(s, steps, k).lost == s.lost
            && At(Run(s, steps, k).sent, s.today) == At(s.sent, s.today) + n + k
    decreases n
  {
    hide Legal, Run, At, Add;
    if n == 0 {
      AllSend(s, 0, 0, 0, k);
    } else {
      var t := OneAlone(s, Storm(n - 1, 0, 0, 0, k), k);
      CountThenStorm(t, n - 1, k);
    }
  }

  /**
   The bound is met for every k: from a fresh start, with never more than k processes in flight
   and no lost count, a day sees 3 + k threads.
   */
  lemma OverlapReachesBound(today: Day, k: nat) returns (s: State, steps: seq<Step>)
    requires k > 0
    ensures Start(s) && s.today == today && Legal(s, steps, k)
    ensures At(Run(s, steps, k).sent, today) == 3 + k
    ensures Run(s, steps, k).lost == map[]
  {
    hide Legal, Run;
    s := State(today, map[], map[], map[], map[]);
    steps := Storm(MAX_POSTS_PER_DAY - 1, 0, 0, 0, k);
    CountThenStorm(s, MAX_POSTS_PER_DAY - 1, k);
  }
}
