/**
 The number-word reader of agents/auditor.py: which words of a letter stream are taken,
 and how tens and units are put together again.
 */
module NumberWords {

  // ----- tens and units -----

  function Combine(nums: seq<int>): (r: seq<int>) {
    if nums == [] then []
    else if 20 <= nums[0] <= 90 && |nums| > 1 && 1 <= nums[1] <= 9 then [nums[0] + nums[1]] + Combine(nums[2..])
    else [nums[0]] + Combine(nums[1..])
  }

  method CombineTensUnits(nums: seq<int>) returns (combined: seq<int>)
    ensures combined == Combine(nums)
  {
    combined := [];
    var i := 0;
    while i < |nums|
      invariant 0 <= i <= |nums|
      invariant Combine(nums) == combined + Combine(nums[i..])
    {
      var v := nums[i];
      assert nums[i..][1..] == nums[i + 1..];
      if 20 <= v <= 90 && i + 1 < |nums| && 1 <= nums[i + 1] <= 9 {
        assert nums[i..][2..] == nums[i + 2..];
        combined := combined + [v + nums[i + 1]];
        i := i + 2;
      } else {
        combined := combined + [v];
        i := i + 1;
      }
    }
  }

  function Sum(nums: seq<int>): int {
    if nums == [] then 0 else nums[0] + Sum(nums[1..])
  }

  lemma {:induction false} CombineKeepsSum(nums: seq<int>)
    ensures Sum(Combine(nums)) == Sum(nums)
  {
    if nums != [] {
      if 20 <= nums[0] <= 90 && |nums| > 1 && 1 <= nums[1] <= 9 {
        CombineKeepsSum(nums[2..]);
        assert nums[1..][1..] == nums[2..];
        assert ([nums[0] + nums[1]] + Combine(nums[2..]))[1..] == Combine(nums[2..]);
      } else {
        CombineKeepsSum(nums[1..]);
        assert ([nums[0]] + Combine(nums[1..]))[1..] == Combine(nums[1..]);
      }
    }
  }

  /** The values of the words that spell a number below one hundred. */
  function Words(n: int): seq<int> {
    if n < 20 || n % 10 == 0 then [n] else [n / 10 * 10, n % 10]
  }

  function Spelled(ns: seq<int>): seq<int> {
    if ns == [] then [] else Words(ns[0]) + Spelled(ns[1..])
  }

  /** A bare ten followed by a unit cannot be told from the number they make together. */
  predicate Fuses(a: int, b: int) {
    a >= 20 && a % 10 == 0 && 1 <= b <= 9
  }

  /** The reading of a spelled list: each fusing pair becomes one number. */
  function Fused(ns: seq<int>): seq<int> {
    if ns == [] then []
    else if |ns| > 1 && Fuses(ns[0], ns[1]) then [ns[0] + ns[1]] + Fused(ns[2..])
    else [ns[0]] + Fused(ns[1..])
  }

  predicate BelowHundred(ns: seq<int>) {
    forall i :: 0 <= i < |ns| ==> 0 <= ns[i] <= 99
  }

  lemma {:induction false} CombineReadsSpelled(ns: seq<int>)
    requires BelowHundred(ns)
    ensures Combine(Spelled(ns)) == Fused(ns)
  {
    if ns != [] {
      var rest := Spelled(ns[1..]);
      CombineReadsSpelled(ns[1..]);
      if |Words(ns[0])| == 2 {
        CombinePair(ns[0], rest);
      } else if |ns| > 1 && Fuses(ns[0], ns[1]) {
        CombineReadsSpelled(ns[2..]);
        assert ns[1..][1..] == ns[2..];
        assert ([ns[0]] + rest)[2..] == Spelled(ns[2..]);
      } else {
        if |ns| > 1 {
          assert rest[0] == Words(ns[1])[0];
        }
        assert ([ns[0]] + rest)[1..] == rest;
      }
    }
  }

  lemma CombinePair(n: int, rest: seq<int>)
    requires 0 <= n <= 99 && |Words(n)| == 2
    ensures Combine(Words(n) + rest) == [n] + Combine(rest)
  {
    var nums := Words(n) + rest;
    assert nums[0] == n / 10 * 10 && nums[1] == n % 10 && nums[2..] == rest;
  }

  ghost predicate NothingFuses(ns: seq<int>) {
    forall i :: 0 <= i < |ns| - 1 ==> !Fuses(ns[i], ns[i + 1])
  }

  lemma {:induction false} FusedIsIdentity(ns: seq<int>)
    requires BelowHundred(ns)
    ensures Fused(ns) == ns <==> NothingFuses(ns)
  {
    if |ns| > 1 {
      if Fuses(ns[0], ns[1]) {
        assert Fused(ns)[0] == ns[0] + ns[1];
      } else {
        FusedIsIdentity(ns[1..]);
        assert Fused(ns)[1..] == Fused(ns[1..]) && ns == [ns[0]] + ns[1..];
        if NothingFuses(ns[1..]) {
          forall i | 0 <= i < |ns| - 1 ensures !Fuses(ns[i], ns[i + 1]) {
            if i > 0 {
              assert !Fuses(ns[1..][i - 1], ns[1..][i]);
            }
          }
        } else {
          var j :| 0 <= j < |ns[1..]| - 1 && Fuses(ns[1..][j], ns[1..][j + 1]);
          assert Fuses(ns[j + 1], ns[j + 2]);
        }
      }
    } else if |ns| == 1 {
      assert Fused(ns[1..]) == [];
    }
  }

  /** Reading back the words of a list of numbers returns the list exactly when nothing fuses. */
  lemma {:induction false} RoundTrip(ns: seq<int>)
    requires BelowHundred(ns)
    ensures Combine(Spelled(ns)) == ns <==> NothingFuses(ns)
  {
    CombineReadsSpelled(ns);
    FusedIsIdentity(ns);
  }

  // ----- the tokenizer -----

  datatype Entry = Entry(word: string, value: int)
  datatype Token = Token(start: nat, entry: Entry)

  predicate SpellsAt(stream: string, word: string, i: nat) {
    i + |word| <= |stream| && stream[i..i + |word|] == word
  }

  /** The places one entry of the stream is taken from. */
  predicate Covers(t: Token, k: int) {
    t.start <= k < t.start + |t.entry.word|
  }

  function Places(t: Token): (r: set<int>)
    ensures forall k :: k in r <==> Covers(t, k)
  {
    set k | t.start <= k < t.start + |t.entry.word| && Covers(t, k)
  }

  predicate Overlap(a: Token, b: Token) {
    a.start < b.start + |b.entry.word| && b.start < a.start + |a.entry.word|
  }

  /** `re.finditer`: matches from left to right, each starting after the end of the one before. */
  function Matches(stream: string, word: string, from: nat): (starts: seq<nat>)
    requires word != []
    decreases |stream| - from
  {
    if from + |word| > |stream| then []
    else if SpellsAt(stream, word, from) then [from] + Matches(stream, word, from + |word|)
    else Matches(stream, word, from + 1)
  }

  lemma {:induction false} MatchesSpell(stream: string, word: string, from: nat)
    requires word != []
    ensures forall s :: s in Matches(stream, word, from) ==> from <= s && SpellsAt(stream, word, s)
    decreases |stream| - from
  {
    if from + |word| <= |stream| {
      MatchesSpell(stream, word, if SpellsAt(stream, word, from) then from + |word| else from + 1);
    }
  }

  /** No occurrence is out of reach of a match: one lies on it or ends inside it. */
  lemma {:induction false} MatchNear(stream: string, word: string, from: nat, i: nat) returns (s: nat)
    requires word != [] && from <= i && SpellsAt(stream, word, i)
    ensures s in Matches(stream, word, from) && s <= i < s + |word|
    decreases |stream| - from
  {
    assert from + |word| <= |stream|;
    hide SpellsAt;
    if !SpellsAt(stream, word, from) {
      s := MatchNear(stream, word, from + 1, i);
    } else if i < from + |word| {
      s := from;
    } else {
      s := MatchNear(stream, word, from + |word|, i);
    }
  }

  ghost predicate Apart(starts: seq<nat>, gap: nat) {
    forall i, j :: 0 <= i < j < |starts| ==> starts[i] + gap <= starts[j]
  }

  lemma ApartMore(first: nat, rest: seq<nat>, gap: nat)
    requires Apart(rest, gap) && forall s :: s in rest ==> first + gap <= s
    ensures Apart([first] + rest, gap)
  {
    var starts := [first] + rest;
    forall i, j | 0 <= i < j < |starts| ensures starts[i] + gap <= starts[j] {
      assert starts[j] == rest[j - 1] && rest[j - 1] in rest;
      if i > 0 {
        assert starts[i] == rest[i - 1];
      }
    }
  }

  /** Matches stand apart, from left to right. */
  lemma {:induction false} MatchesApart(stream: string, word: string, from: nat)
    requires word != []
    ensures Apart(Matches(stream, word, from), |word|)
    decreases |stream| - from
  {
    if from + |word| <= |stream| {
      if SpellsAt(stream, word, from) {
        MatchesApart(stream, word, from + |word|);
        MatchesSpell(stream, word, from + |word|);
        ApartMore(from, Matches(stream, word, from + |word|), |word|);
      } else {
        MatchesApart(stream, word, from + 1);
      }
    }
  }

  predicate LongestFirst(entries: seq<Entry>) {
    forall i, j :: 0 <= i < j < |entries| ==> |entries[i].word| >= |entries[j].word|
  }

  /** Why a match of an entry was passed over: a token at least as long lies across it, or the places were gone before. */
  ghost predicate Lost(t: Token, tokens: seq<Token>, before: set<int>) {
    || (exists i :: 0 <= i < |tokens| && Overlap(t, tokens[i]) && |tokens[i].entry.word| >= |t.entry.word|)
    || (exists k :: Covers(t, k) && k in before)
  }

  /** What the taken tokens are: words of the entries, apart from each other and from the places gone before. */
  ghost predicate Sound(entries: seq<Entry>, stream: string, before: set<int>, tokens: seq<Token>, used: set<int>) {
    && (forall t :: t in tokens ==> t.entry in entries && t.entry.word != [] && SpellsAt(stream, t.entry.word, t.start))
    && (forall i, j :: 0 <= i < j < |tokens| ==> !Overlap(tokens[i], tokens[j]))
    && (forall k :: k in used <==> k in before || exists t :: t in tokens && Covers(t, k))
    && (forall t, k :: t in tokens && Covers(t, k) ==> k !in before)
  }

  ghost predicate Settled(e: Entry, s: nat, once: bool, tokens: seq<Token>, before: set<int>) {
    || Token(s, e) in tokens
    || Lost(Token(s, e), tokens, before)
    || (once && exists t :: t in tokens && t.entry == e && t.start < s)
  }

  method TakeWord(e: Entry, entries: seq<Entry>, stream: string, once: bool, before: set<int>,
                  tokens0: seq<Token>, used0: set<int>)
    returns (tokens: seq<Token>, used: set<int>)
    requires e.word != [] && e in entries
    requires Sound(entries, stream, before, tokens0, used0)
    requires forall t :: t in tokens0 ==> |t.entry.word| >= |e.word|
    ensures Sound(entries, stream, before, tokens, used)
    ensures tokens0 <= tokens
    ensures forall t :: t in tokens ==> |t.entry.word| >= |e.word|
    ensures forall s :: s in Matches(stream, e.word, 0) ==> Settled(e, s, once, tokens, before)
    ensures forall i :: |tokens0| <= i < |tokens| ==> tokens[i].entry == e
    ensures once ==> |tokens| <= |tokens0| + 1
  {
    hide Sound, Settled, Matches;
    tokens, used := tokens0, used0;
    var starts := Matches(stream, e.word, 0);
    MatchesSpell(stream, e.word, 0);
    MatchesApart(stream, e.word, 0);
    var m := 0;
    while m < |starts|
      invariant 0 <= m <= |starts|
      invariant Sound(entries, stream, before, tokens, used) && tokens0 <= tokens
      invariant forall t :: t in tokens ==> |t.entry.word| >= |e.word|
      invariant forall j :: 0 <= j < m ==> Settled(e, starts[j], once, tokens, before)
      invariant forall i :: |tokens0| <= i < |tokens| ==> tokens[i].entry == e
      invariant once ==> tokens == tokens0
    {
      var t := Token(starts[m], e);
      var r := Places(t);
      if r * used == {} {
        forall k | Covers(t, k) ensures k !in used {
          assert k in r && k !in r * used;
        }
        TakeIsSound(entries, stream, before, tokens, used, t);
        KeepsSettled(e, starts[..m], once, tokens, t, before);
        tokens, used := tokens + [t], used + r;
        NowSettled(e, once, tokens, before);
        if once {
          break;
        }
      } else {
        var k :| k in r * used;
        ClashIsLost(tokens, used, before, t, entries, stream, once, k);
      }
      m := m + 1;
    }
  }

  lemma NowSettled(e: Entry, once: bool, tokens: seq<Token>, before: set<int>)
    requires tokens != [] && tokens[|tokens| - 1].entry == e
    ensures Settled(e, tokens[|tokens| - 1].start, once, tokens, before)
    ensures once ==> forall s :: s > tokens[|tokens| - 1].start ==> Settled(e, s, once, tokens, before)
  {
    assert tokens[|tokens| - 1] in tokens;
  }

  lemma TakeIsSound(entries: seq<Entry>, stream: string, before: set<int>, tokens: seq<Token>, used: set<int>, t: Token)
    requires Sound(entries, stream, before, tokens, used)
    requires t.entry in entries && SpellsAt(stream, t.entry.word, t.start) && t.entry.word != []
    requires forall k :: Covers(t, k) ==> k !in used
    ensures Sound(entries, stream, before, tokens + [t], used + Places(t))
  {
    forall i | 0 <= i < |tokens| ensures !Overlap(tokens[i], t) {
      var a := tokens[i];
      if Overlap(a, t) {
        assert a in tokens;
        var k := if a.start < t.start then t.start else a.start;
        assert Covers(t, k) && Covers(a, k);
      }
    }
    var more := tokens + [t];
    assert forall u :: u in more <==> u in tokens || u == t;
    forall k ensures k in used || Covers(t, k) <==> k in before || exists u :: u in more && Covers(u, k) {
      if k in used && k !in before {
        var u :| u in tokens && Covers(u, k);
        assert u in more;
      } else if Covers(t, k) {
        assert t in more;
      }
    }
  }

  lemma KeepsSettled(e: Entry, starts: seq<nat>, once: bool, tokens: seq<Token>, t: Token, before: set<int>)
    requires forall j :: 0 <= j < |starts| ==> Settled(e, starts[j], once, tokens, before)
    ensures forall j :: 0 <= j < |starts| ==> Settled(e, starts[j], once, tokens + [t], before)
  {
    forall j | 0 <= j < |starts| ensures Settled(e, starts[j], once, tokens + [t], before) {
      var u := Token(starts[j], e);
      if Lost(u, tokens, before) {
        if i :| 0 <= i < |tokens| && Overlap(u, tokens[i]) && |tokens[i].entry.word| >= |e.word| {
          assert (tokens + [t])[i] == tokens[i];
        }
      }
    }
  }

  lemma ClashIsLost(tokens: seq<Token>, used: set<int>, before: set<int>, t: Token, entries: seq<Entry>, stream: string,
                    once: bool, k: int)
    requires Sound(entries, stream, before, tokens, used)
    requires Covers(t, k) && k in used
    requires forall u :: u in tokens ==> |u.entry.word| >= |t.entry.word|
    ensures Settled(t.entry, t.start, once, tokens, before)
  {
    if k !in before {
      var u :| u in tokens && Covers(u, k);
      var i :| 0 <= i < |tokens| && tokens[i] == u;
      assert Overlap(t, tokens[i]);
    }
  }

  /**
   One pass over the entries, longest words first. With `once` an entry gives at most one
   token, as for the operators, which look only at the places the numbers left.
   */
  method Tokenize(entries: seq<Entry>, stream: string, once: bool, before: set<int>)
    returns (tokens: seq<Token>, used: set<int>)
    requires forall e :: e in entries ==> e.word != []
    requires LongestFirst(entries)
    ensures Sound(entries, stream, before, tokens, used)
    ensures forall e, s :: e in entries && s in Matches(stream, e.word, 0) ==> Settled(e, s, once, tokens, before)
    ensures once && Different(entries) ==> forall i, j :: 0 <= i < j < |tokens| ==> tokens[i].entry != tokens[j].entry
  {
    tokens, used := [], before;
    var n := 0;
    while n < |entries|
      invariant 0 <= n <= |entries|
      invariant Sound(entries, stream, before, tokens, used)
      invariant forall t, j :: t in tokens && n <= j < |entries| ==> |t.entry.word| >= |entries[j].word|
      invariant forall i, s :: 0 <= i < n && s in Matches(stream, entries[i].word, 0) ==>
                  Settled(entries[i], s, once, tokens, before)
      invariant forall t :: t in tokens ==> t.entry in entries[..n]
      invariant once && Different(entries) ==> forall i, j :: 0 <= i < j < |tokens| ==> tokens[i].entry != tokens[j].entry
    {
      ghost var earlier := tokens;
      tokens, used := TakeWord(entries[n], entries, stream, once, before, tokens, used);
      forall i, s | 0 <= i < n && s in Matches(stream, entries[i].word, 0)
        ensures Settled(entries[i], s, once, tokens, before)
      {
        LongerKeepsSettled(entries[i], s, once, earlier, tokens, before);
      }
      EntriesSoFar(entries, n, earlier, tokens, once);
      n := n + 1;
    }
  }

  predicate Different(entries: seq<Entry>) {
    forall i, j :: 0 <= i < j < |entries| ==> entries[i] != entries[j]
  }

  lemma EntriesSoFar(entries: seq<Entry>, n: nat, earlier: seq<Token>, tokens: seq<Token>, once: bool)
    requires n < |entries| && earlier <= tokens && (forall t :: t in earlier ==> t.entry in entries[..n])
    requires forall i :: |earlier| <= i < |tokens| ==> tokens[i].entry == entries[n]
    requires once ==> |tokens| <= |earlier| + 1
    requires once && Different(entries) ==> forall i, j :: 0 <= i < j < |earlier| ==> earlier[i].entry != earlier[j].entry
    ensures forall t :: t in tokens ==> t.entry in entries[..n + 1]
    ensures once && Different(entries) ==> forall i, j :: 0 <= i < j < |tokens| ==> tokens[i].entry != tokens[j].entry
  {
    forall t | t in tokens ensures t.entry in entries[..n + 1] {
      var i :| 0 <= i < |tokens| && tokens[i] == t;
      if i < |earlier| {
        assert earlier[i] in earlier;
      } else {
        assert entries[..n + 1][n] == entries[n];
      }
    }
    if once && Different(entries) {
      forall i, j | 0 <= i < j < |tokens| ensures tokens[i].entry != tokens[j].entry {
        if j >= |earlier| {
          assert earlier[i] in earlier;
        }
      }
    }
  }

  lemma LongerKeepsSettled(e: Entry, s: nat, once: bool, earlier: seq<Token>, tokens: seq<Token>, before: set<int>)
    requires earlier <= tokens && Settled(e, s, once, earlier, before)
    ensures Settled(e, s, once, tokens, before)
  {
    var u := Token(s, e);
    assert forall t :: t in earlier ==> t in tokens;
    if Lost(u, earlier, before) {
      if i :| 0 <= i < |earlier| && Overlap(u, earlier[i]) && |earlier[i].entry.word| >= |e.word| {
        assert tokens[i] == earlier[i];
      }
    }
  }

  /** Numbers first, then one token per operator word from what is left of the stream. */
  method ReadStream(numbers: seq<Entry>, operators: seq<Entry>, stream: string)
    returns (nums: seq<Token>, ops: seq<Token>)
    requires forall e :: e in numbers || e in operators ==> e.word != []
    requires LongestFirst(numbers) && LongestFirst(operators)
    ensures forall i, j :: 0 <= i < j < |nums + ops| ==> !Overlap((nums + ops)[i], (nums + ops)[j])
    ensures forall t :: t in nums ==> t.entry in numbers && SpellsAt(stream, t.entry.word, t.start)
    ensures forall t :: t in ops ==> t.entry in operators && SpellsAt(stream, t.entry.word, t.start)
    ensures forall e, s :: e in numbers && s in Matches(stream, e.word, 0) ==>
              Token(s, e) in nums || exists t :: t in nums && Overlap(Token(s, e), t) && |t.entry.word| >= |e.word|
    ensures Different(operators) ==> forall i, j :: 0 <= i < j < |ops| ==> ops[i].entry != ops[j].entry
    ensures forall e, s :: e in operators && s in Matches(stream, e.word, 0) ==>
              Token(s, e) in ops || (exists t :: t in ops && t.entry == e && t.start < s)
              || (exists t :: t in nums && Overlap(Token(s, e), t))
              || (exists t :: t in ops && Overlap(Token(s, e), t) && |t.entry.word| >= |e.word|)
  {
    var used, all;
    nums, used := Tokenize(numbers, stream, false, {});
    ops, all := Tokenize(operators, stream, true, used);
    forall a, b | a in nums && b in ops ensures !Overlap(a, b) {
      if Overlap(a, b) {
        var k := if a.start < b.start then b.start else a.start;
        assert Covers(a, k) && Covers(b, k);
      }
    }
    forall e, s | e in numbers && s in Matches(stream, e.word, 0)
      ensures Token(s, e) in nums || exists t :: t in nums && Overlap(Token(s, e), t) && |t.entry.word| >= |e.word|
    {
      assert Settled(e, s, false, nums, {});
      if Token(s, e) !in nums {
        var i :| 0 <= i < |nums| && Overlap(Token(s, e), nums[i]) && |nums[i].entry.word| >= |e.word|;
        assert nums[i] in nums;
      }
    }
    OperatorsAreSettled(operators, stream, nums, used, ops);
  }

  /** Why an operator word was not taken where it stands. */
  lemma OperatorsAreSettled(operators: seq<Entry>, stream: string, nums: seq<Token>, used: set<int>, ops: seq<Token>)
    requires forall e :: e in operators ==> e.word != []
    requires forall k :: k in used ==> exists t :: t in nums && Covers(t, k)
    requires forall e, s :: e in operators && s in Matches(stream, e.word, 0) ==> Settled(e, s, true, ops, used)
    ensures forall e, s :: e in operators && s in Matches(stream, e.word, 0) ==>
              Token(s, e) in ops || (exists t :: t in ops && t.entry == e && t.start < s)
              || (exists t :: t in nums && Overlap(Token(s, e), t))
              || (exists t :: t in ops && Overlap(Token(s, e), t) && |t.entry.word| >= |e.word|)
  {
    hide Matches;
    forall e, s | e in operators && s in Matches(stream, e.word, 0)
      ensures || Token(s, e) in ops || (exists t :: t in ops && t.entry == e && t.start < s)
              || (exists t :: t in nums && Overlap(Token(s, e), t))
              || (exists t :: t in ops && Overlap(Token(s, e), t) && |t.entry.word| >= |e.word|)
    {
      var u := Token(s, e);
      assert Settled(e, s, true, ops, used);
      if Lost(u, ops, used) {
        if i :| 0 <= i < |ops| && Overlap(u, ops[i]) && |ops[i].entry.word| >= |e.word| {
          assert ops[i] in ops;
        } else {
          var k :| Covers(u, k) && k in used;
          var t :| t in nums && Covers(t, k);
          assert Overlap(u, t);
        }
      }
    }
  }
}
