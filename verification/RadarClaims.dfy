/**
 The claim window of agents/reply_radar.py: once a draft used a claim, no other draft may
 use it for 48 hours, although old entries are dropped whenever the book is read or written.
 */
module RadarClaims {
  import opened Common

  const CLAIM_WINDOW := 48 * 3600  // seconds

  type Mark = string

  /** The book: marks with the time of their last use, or the older shape, a bare list. */
  datatype Claims =
    | Window(uses: map<Mark, Option<int>>)  // absent when the stamp cannot be read
    | Listed(marks: seq<Mark>)

  /** What is still spent at `now`; entries of the older shape count as used at this moment. */
  function History(c: Claims, now: int, wall: int): map<Mark, int> {
    match c
    case Window(uses) =>
      map m | m in uses && uses[m].Some? && uses[m].value > now - CLAIM_WINDOW :: uses[m].value
    case Listed(marks) => map m | m in marks :: wall
  }

  /** `start` is when the run began, `wall` the time of the call, `blocked` the claims blocked by hand. */
  predicate Conflict(c: Claims, marks: seq<Mark>, start: int, wall: int, blocked: set<Mark>) {
    var history := History(c, start, wall);
    exists m :: m in marks && (m in blocked || (m in history && history[m] > start - CLAIM_WINDOW))
  }

  function Remember(c: Claims, marks: seq<Mark>, wall: int): Claims {
    var history := History(c, wall, wall);
    Window(map m | m in history.Keys + (set k | k in marks) :: Some(if m in marks then wall else history[m]))
  }

  /** One gate-passing draft: when it was recorded and what it leant on. */
  datatype Use = Use(at: int, marks: seq<Mark>)

  ghost predicate Spaced(log: seq<Use>) {
    forall i, j, m :: 0 <= i < j < |log| && m in log[i].marks && m in log[j].marks
      ==> log[j].at - log[i].at >= 48 * 3600
  }

  /** The book remembers a use at least as recent, or the use is over. */
  ghost predicate Covers(c: Claims, u: Use, clock: int) {
    forall m :: m in u.marks ==>
      (c.Window? && m in c.uses && c.uses[m].Some? && c.uses[m].value >= u.at) || u.at + CLAIM_WINDOW <= clock
  }

  ghost predicate Kept(c: Claims, log: seq<Use>, clock: int) {
    forall i :: 0 <= i < |log| ==> log[i].at <= clock && Covers(c, log[i], clock)
  }

  /** A use the book still covers clashes for as long as its 48 hours outlast the run's start. */
  lemma CoveredUseClashes(c: Claims, at: int, marks: seq<Mark>, m: Mark, start: int, wall: int, blocked: set<Mark>)
    requires c.Window? && m in c.uses && c.uses[m].Some? && c.uses[m].value >= at
    requires m in marks && at + CLAIM_WINDOW > start
    ensures Conflict(c, marks, start, wall, blocked)
  {
    assert m in History(c, start, wall) && History(c, start, wall)[m] > start - CLAIM_WINDOW;
  }

  lemma RememberCovers(c: Claims, u: Use, marks: seq<Mark>, clock: int, wall: int)
    requires Covers(c, u, clock) && u.at <= clock <= wall
    ensures Covers(Remember(c, marks, wall), u, wall)
  {
    var after := Remember(c, marks, wall);
    forall m | m in u.marks && u.at + CLAIM_WINDOW > wall
      ensures m in after.uses && after.uses[m].Some? && after.uses[m].value >= u.at
    {
      assert m in History(c, wall, wall);
    }
  }

  /**
   The step that keeps claims apart: a draft without a conflict at the run's start time,
   recorded at any later time, is 48 hours after every earlier use of one of its marks.
   */
  lemma DraftKeepsSpacing(c: Claims, log: seq<Use>, marks: seq<Mark>, start: int, clock: int, wall: int, blocked: set<Mark>)
    requires Spaced(log) && Kept(c, log, clock) && start <= wall && clock <= wall
    requires !Conflict(c, marks, start, wall, blocked)
    ensures Spaced(log + [Use(wall, marks)])
    ensures Kept(Remember(c, marks, wall), log + [Use(wall, marks)], wall)
  {
    hide Conflict, Remember;
    var all := log + [Use(wall, marks)];
    forall i, m | 0 <= i < |log| && m in log[i].marks && m in marks
      ensures wall - log[i].at >= CLAIM_WINDOW
    {
      assert Covers(c, log[i], clock);
      if log[i].at + CLAIM_WINDOW > clock && log[i].at + CLAIM_WINDOW > start {
        CoveredUseClashes(c, log[i].at, marks, m, start, wall, blocked);
      }
    }
    forall i | 0 <= i < |all| ensures Covers(Remember(c, marks, wall), all[i], wall) {
      if i < |log| {
        RememberCovers(c, log[i], marks, clock, wall);
      } else {
        NewUseIsCovered(c, marks, wall);
      }
    }
  }

  lemma NewUseIsCovered(c: Claims, marks: seq<Mark>, wall: int)
    ensures Covers(Remember(c, marks, wall), Use(wall, marks), wall)
  {
  }

  lemma KeptLater(c: Claims, log: seq<Use>, clock: int, later: int)
    requires Kept(c, log, clock) && clock <= later
    ensures Kept(c, log, later)
  {
  }

  /**
   When a draft is withheld: exactly if a claim of it is blocked by hand or was used less than 48
   hours before the run. Reading drops a mark whose stamp is unreadable or older, so a claim cannot
   stay withheld without a recent use.
   */
  lemma OnlyRecentUsesClash(c: Claims, marks: seq<Mark>, start: int, wall: int, blocked: set<Mark>)
    requires c.Window?
    ensures Conflict(c, marks, start, wall, blocked) <==>
              exists m :: m in marks && (m in blocked || (m in c.uses && c.uses[m].Some? && start - c.uses[m].value < 48 * 3600))
  {
    if Conflict(c, marks, start, wall, blocked) {
      var m :| m in marks && (m in blocked || (m in History(c, start, wall) && History(c, start, wall)[m] > start - CLAIM_WINDOW));
      assert m in blocked || m in c.uses;
    }
    if m :| m in marks && (m in blocked || (m in c.uses && c.uses[m].Some? && start - c.uses[m].value < 48 * 3600)) {
      assert m in blocked || m in History(c, start, wall);
    }
  }

  /** A book of the older shape withholds every claim it lists, as if used at the moment of the call. */
  lemma OldBooksClash(c: Claims, marks: seq<Mark>, start: int, wall: int)
    requires c.Listed? && start <= wall
    ensures Conflict(c, marks, start, wall, {}) <==> exists m :: m in marks && m in c.marks
  {
    if Conflict(c, marks, start, wall, {}) {
      var m :| m in marks && m in History(c, start, wall);
      assert m in c.marks;
    }
    if m :| m in marks && m in c.marks {
      assert m in History(c, start, wall);
    }
  }

  /** What the book says after a draft: its claims used now, and the others as long as they still count. */
  lemma RememberMeans(c: Claims, marks: seq<Mark>, wall: int)
    ensures var b := Remember(c, marks, wall);
            && b.Window?
            && (forall m :: m in marks ==> m in b.uses && b.uses[m] == Some(wall))
            && (forall m :: m in b.uses && m !in marks ==>
                  if c.Window? then m in c.uses && b.uses[m] == c.uses[m] && b.uses[m].Some? && wall - b.uses[m].value < 48 * 3600
                  else m in c.marks && b.uses[m] == Some(wall))
            && (c.Window? ==> forall m :: m in c.uses && c.uses[m].Some? && wall - c.uses[m].value < 48 * 3600 ==> m in b.uses)
  {
  }
}
