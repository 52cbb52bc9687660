/**
 Rule c8 of agents/comment_gate.py: a draft may not repeat one of the last thirty comments,
 neither in its opening sentence nor in its five-word sequences.
 */
module Repetition {
  import opened Common

  const DEDUP_WINDOW := 30
  const OPENER_SIMILARITY := 0.90
  const SHINGLE_CONTAINMENT := 0.45
  const SHINGLE_N := 5

  type Word = string

  /** A text as its lower-case words; one with words is not blank. */
  datatype Text = Text(words: seq<Word>, blank: bool)

  predicate Readable(t: Text) {
    t.words != [] ==> !t.blank
  }

  /** An earlier comment and how alike its opening is to the draft's, as the matcher rates it. */
  datatype Earlier = Earlier(text: Text, opener: real)

  function Shingle(w: seq<Word>, i: nat): seq<Word>
    requires i + SHINGLE_N <= |w|
  {
    w[i..i + SHINGLE_N]
  }

  function Shingles(w: seq<Word>): set<seq<Word>> {
    set i: nat | i + SHINGLE_N <= |w| :: Shingle(w, i)
  }

  function Min(a: nat, b: nat): nat {
    if a < b then a else b
  }

  /** The share of the smaller text's sequences that the other one has. */
  function Containment(a: seq<Word>, b: seq<Word>): real {
    var sa, sb := Shingles(a), Shingles(b);
    if sa == {} || sb == {} then 0.0 else |sa * sb| as real / Min(|sa|, |sb|) as real
  }

  // ----- containment -----

  lemma Quotient(n: nat, m: nat)
    requires n <= m && m > 0
    ensures 0.0 <= n as real / m as real <= 1.0
    ensures n as real / m as real == 1.0 <==> n == m
  {
  }

  /** Full containment means one text's sequences are all in the other, whichever is the longer. */
  lemma FullContainment(a: seq<Word>, b: seq<Word>)
    ensures 0.0 <= Containment(a, b) <= 1.0
    ensures Containment(a, b) == 1.0
       <==> Shingles(a) != {} && Shingles(b) != {} && (Shingles(a) <= Shingles(b) || Shingles(b) <= Shingles(a))
  {
    var sa, sb := Shingles(a), Shingles(b);
    if sa != {} && sb != {} {
      SubsetSize(sa * sb, sa);
      SubsetSize(sa * sb, sb);
      Quotient(|sa * sb|, Min(|sa|, |sb|));
      if sa <= sb {
        assert sa * sb == sa;
        SubsetSize(sa, sb);
      } else if sb <= sa {
        assert sa * sb == sb;
        SubsetSize(sb, sa);
      } else {
        assert sa * sb != sa && sa * sb != sb;
      }
    }
  }

  lemma ContainmentIsSymmetric(a: seq<Word>, b: seq<Word>)
    ensures Containment(a, b) == Containment(b, a)
  {
    assert Shingles(a) * Shingles(b) == Shingles(b) * Shingles(a);
  }

  /** A comment below five words has no sequences and is never matched this way. */
  lemma ShortTextsNeverMatch(a: seq<Word>, b: seq<Word>)
    ensures Shingles(a) == {} <==> |a| < 5
    ensures |a| < 5 || |b| < 5 ==> Containment(a, b) == 0.0
  {
    if |a| >= SHINGLE_N {
      assert Shingle(a, 0) in Shingles(a);
    }
  }

  /** The five-word sequences of a text are its runs of five words, from any place on. */
  lemma ShinglesAre(a: seq<Word>, s: seq<Word>) returns (at: nat)
    ensures s in Shingles(a) <==> at + 5 <= |a| && s == a[at..at + 5]
    ensures forall i: nat :: i + 5 <= |a| && Shingle(a, i) == s ==> s in Shingles(a)
  {
    at := |a|;
    if s in Shingles(a) {
      at :| at + SHINGLE_N <= |a| && s == Shingle(a, at);
    }
  }

  /** The sequences two texts share, as a share of those of the text that has fewer. */
  lemma ContainmentIsShare(a: seq<Word>, b: seq<Word>)
    requires |a| >= 5 && |b| >= 5
    ensures var sa, sb := Shingles(a), Shingles(b);
            Containment(a, b) * (if |sa| <= |sb| then |sa| else |sb|) as real == |sa * sb| as real
  {
    var sa, sb := Shingles(a), Shingles(b);
    ShortTextsNeverMatch(a, b);
    ShortTextsNeverMatch(b, a);
    hide Shingles;
    Undivide(|sa * sb|, Min(|sa|, |sb|));
  }

  lemma Undivide(n: nat, m: nat)
    requires m > 0
    ensures n as real / m as real * m as real == n as real
  {
  }

  /** Whatever stands around a comment of five words or more, its sequences are all there. */
  lemma EmbeddingIsContained(before: seq<Word>, block: seq<Word>, after: seq<Word>)
    requires |block| >= SHINGLE_N
    ensures Containment(before + block + after, block) == 1.0
  {
    var draft := before + block + after;
    forall s | s in Shingles(block) ensures s in Shingles(draft) {
      var i: nat :| i + SHINGLE_N <= |block| && s == Shingle(block, i);
      assert Shingle(draft, |before| + i) == s;
    }
    ShortTextsNeverMatch(block, draft);
    ShortTextsNeverMatch(draft, block);
    FullContainment(draft, block);
  }

  // ----- the rule -----

  /** `score` is what the finding reports, `at` the comment it names, newest being 0. */
  datatype Finding = Opener(score: real, at: nat) | Sequences(score: real, at: nat)

  /** The order in which the measures are taken: by comment, its opening first. */
  function Place(f: Finding): nat {
    if f.Opener? then 2 * f.at else 2 * f.at + 1
  }

  function Consulted(recent: seq<Earlier>): nat {
    Min(|recent|, DEDUP_WINDOW)
  }

  predicate OpenerHit(recent: seq<Earlier>, i: nat)
    requires i < |recent|
  {
    !recent[i].text.blank && recent[i].opener >= OPENER_SIMILARITY
  }

  predicate SequencesHit(draft: Text, recent: seq<Earlier>, i: nat)
    requires i < |recent|
  {
    !recent[i].text.blank && Containment(draft.words, recent[i].text.words) >= SHINGLE_CONTAINMENT
  }

  /** A finding that is really there. */
  predicate Hit(f: Finding, draft: Text, recent: seq<Earlier>) {
    f.at < |recent|
    && match f
       case Opener(score, at) => OpenerHit(recent, at) && score == recent[at].opener
       case Sequences(score, at) =>
         SequencesHit(draft, recent, at) && score == Containment(draft.words, recent[at].text.words)
  }

  /** The highest score among the measures taken so far, the earliest of equals; none without a hit. */
  ghost predicate IsWorst(worst: Option<Finding>, draft: Text, recent: seq<Earlier>, taken: nat) {
    (worst.Some? ==> Hit(worst.value, draft, recent) && Place(worst.value) < taken)
    && forall g :: Hit(g, draft, recent) && Place(g) < taken ==>
         worst.Some? && (g.score < worst.value.score || (g.score == worst.value.score && Place(worst.value) <= Place(g)))
  }

  function Score(worst: Option<Finding>): real {
    if worst.Some? then worst.value.score else 0.0
  }

  lemma OneMeasureMore(worst: Option<Finding>, f: Finding, draft: Text, recent: seq<Earlier>)
    requires IsWorst(worst, draft, recent, Place(f)) && f.at < |recent|
    requires Hit(f, draft, recent) || forall g :: Place(g) == Place(f) ==> !Hit(g, draft, recent)
    ensures IsWorst(if Hit(f, draft, recent) && f.score > Score(worst) then Some(f) else worst, draft, recent, Place(f) + 1)
  {
    hide Containment;
    forall g | Hit(g, draft, recent) && Place(g) == Place(f) ensures g == f {
      assert g.at == f.at && g.Opener? == f.Opener?;
    }
  }

  /**
   The report is the worst repetition among the last thirty comments, and there is none
   exactly when no comment with text reaches either threshold.
   */
  method RepeatsRecent(draft: Text, recent: seq<Earlier>) returns (worst: Option<Finding>)
    ensures worst.None?
       <==> (draft.blank || forall i :: 0 <= i < Consulted(recent) ==> !OpenerHit(recent, i) && !SequencesHit(draft, recent, i))
    ensures !draft.blank ==> IsWorst(worst, draft, recent, 2 * Consulted(recent))
    ensures worst.None? <==> draft.blank || forall i :: 0 <= i < |recent| && i < 30 ==>
              recent[i].text.blank || (recent[i].opener < 0.90 && Containment(draft.words, recent[i].text.words) < 0.45)
  {
    hide Containment;
    worst := None;
    if draft.blank {
      return;
    }
    var worstScore := 0.0;
    var i := 0;
    while i < Consulted(recent)
      invariant 0 <= i <= Consulted(recent)
      invariant IsWorst(worst, draft, recent, 2 * i) && worstScore == Score(worst)
    {
      hide IsWorst, Hit;
      var earlier := recent[i];
      var ratio, share := earlier.opener, Containment(draft.words, earlier.text.words);
      ghost var first, second := Opener(ratio, i), Sequences(share, i);
      MeasureAt(draft, recent, i);
      OneMeasureMore(worst, first, draft, recent);
      if !earlier.text.blank && ratio >= OPENER_SIMILARITY && ratio > worstScore {
        worstScore, worst := ratio, Some(Opener(ratio, i));
      }
      OneMeasureMore(worst, second, draft, recent);
      if !earlier.text.blank && share >= SHINGLE_CONTAINMENT && share > worstScore {
        worstScore, worst := share, Some(Sequences(share, i));
      }
      i := i + 1;
    }
    NoneMeansClean(worst, draft, recent);
    NoHitsMeans(draft, recent);
  }

  /** No hit among those consulted: each of the last thirty is blank or below both thresholds. */
  lemma NoHitsMeans(draft: Text, recent: seq<Earlier>)
    ensures (forall i :: 0 <= i < Consulted(recent) ==> !OpenerHit(recent, i) && !SequencesHit(draft, recent, i))
       <==> (forall i :: 0 <= i < |recent| && i < 30 ==>
              recent[i].text.blank || (recent[i].opener < 0.90 && Containment(draft.words, recent[i].text.words) < 0.45))
  {
    hide Containment;
    forall i | 0 <= i < |recent| && i < 30
      ensures i < Consulted(recent)
      ensures !OpenerHit(recent, i) && !SequencesHit(draft, recent, i)
         <==> (recent[i].text.blank || (recent[i].opener < 0.90 && Containment(draft.words, recent[i].text.words) < 0.45))
    {
    }
  }

  lemma MeasureAt(draft: Text, recent: seq<Earlier>, i: nat)
    requires i < |recent|
    ensures var first, second := Opener(recent[i].opener, i), Sequences(Containment(draft.words, recent[i].text.words), i);
            && (Hit(first, draft, recent) <==> OpenerHit(recent, i))
            && (Hit(second, draft, recent) <==> SequencesHit(draft, recent, i))
            && (forall g :: Place(g) == Place(first) && Hit(g, draft, recent) ==> Hit(first, draft, recent))
            && (forall g :: Place(g) == Place(second) && Hit(g, draft, recent) ==> Hit(second, draft, recent))
  {
    hide Containment;
    forall g | (Place(g) == 2 * i || Place(g) == 2 * i + 1) ensures g.at == i {
    }
  }

  lemma NoneMeansClean(worst: Option<Finding>, draft: Text, recent: seq<Earlier>)
    requires IsWorst(worst, draft, recent, 2 * Consulted(recent))
    ensures worst.None? <==> forall i :: 0 <= i < Consulted(recent) ==> !OpenerHit(recent, i) && !SequencesHit(draft, recent, i)
  {
    hide Containment;
    forall i | 0 <= i < Consulted(recent) ensures worst.None? ==> !OpenerHit(recent, i) && !SequencesHit(draft, recent, i) {
      MeasureAt(draft, recent, i);
    }
  }

  /**
   A draft that embeds one of the last thirty comments, of five words or more, is refused
   with at least full containment; `worst` is what `RepeatsRecent` reports.
   */
  lemma EmbeddingIsRefused(before: seq<Word>, after: seq<Word>, draft: Text, recent: seq<Earlier>, at: nat, worst: Option<Finding>)
    requires at < Consulted(recent) && Readable(draft) && Readable(recent[at].text)
    requires |recent[at].text.words| >= SHINGLE_N && draft.words == before + recent[at].text.words + after
    requires IsWorst(worst, draft, recent, 2 * Consulted(recent))
    ensures worst.Some? && worst.value.score >= 1.0
  {
    EmbeddingIsContained(before, recent[at].text.words, after);
    assert Hit(Sequences(1.0, at), draft, recent);
  }
}
