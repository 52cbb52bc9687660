/**
 The retention job of agents/retention_cleanup.py beside the traffic monitor: the first
 appearance of a caller is frozen into a ledger before its log rows may be pruned.
 */
module Retention {
  import opened Common

  const LOG_DAYS := 30 * 86400  // seconds

  type Ip = string

  datatype Row = Row(ip: Ip, ts: int)

  predicate External(ip: Ip) {
    && ip != "::1"
    && !("127." <= ip) && !("10." <= ip) && !("172.16." <= ip) && !("192.168." <= ip)
    && !("88.99." <= ip) && !("116.202." <= ip) && !("46.225.175." <= ip)
  }

  /** Not external is this machine, and whatever begins like a private network or one of our own hosts. */
  predicate OwnNet(net: string) {
    net == "127." || net == "10." || net == "172.16." || net == "192.168." || net == "88.99." || net == "116.202."
    || net == "46.225.175."
  }

  lemma OwnNetsAreNotExternal(net: string, rest: string)
    requires OwnNet(net)
    ensures !External(net + rest) && !External("::1")
  {
    assert net <= net + rest;
  }

  lemma OnlyOwnNetsAreNotExternal(ip: Ip) returns (net: string, rest: string)
    requires !External(ip) && ip != "::1"
    ensures OwnNet(net) && ip == net + rest
  {
    net := if "127." <= ip then "127." else if "10." <= ip then "10." else if "172.16." <= ip then "172.16."
           else if "192.168." <= ip then "192.168." else if "88.99." <= ip then "88.99."
           else if "116.202." <= ip then "116.202." else "46.225.175.";
    rest := ip[|net|..];
  }

  function SameIp(ip: Ip): Row -> bool {
    (r: Row) => r.ip == ip
  }

  function Since(cutoff: int): Row -> bool {
    (r: Row) => r.ts >= cutoff
  }

  function RowsOf(rows: seq<Row>, ip: Ip): seq<Row> {
    Filter(rows, SameIp(ip))
  }

  function MinTs(rows: seq<Row>): (m: int)
    requires rows != []
    ensures forall r :: r in rows ==> m <= r.ts
    ensures exists r :: r in rows && m == r.ts
  {
    if |rows| == 1 then rows[0].ts
    else
      var m := MinTs(rows[1..]);
      assert rows == [rows[0]] + rows[1..];
      if rows[0].ts <= m then rows[0].ts else m
  }

  // ----- the statements -----

  type Ledger = map<Ip, int>

  function Ips(log: seq<Row>): set<Ip> {
    set r | r in log :: r.ip
  }

  lemma HasRows(log: seq<Row>, ip: Ip)
    ensures ip in Ips(log) <==> RowsOf(log, ip) != []
  {
    if ip in Ips(log) {
      var r :| r in log && r.ip == ip;
      FilterMember(log, SameIp(ip), r);
    }
    if RowsOf(log, ip) != [] {
      FilterMember(log, SameIp(ip), RowsOf(log, ip)[0]);
    }
  }

  function FirstLogged(log: seq<Row>, ip: Ip): int
    requires ip in Ips(log)
  {
    HasRows(log, ip);
    MinTs(RowsOf(log, ip))
  }

  /** Insert the earliest time of each chosen caller, doing nothing on a conflict. */
  function Upsert(log: seq<Row>, ledger: Ledger, chosen: set<Ip>): Ledger {
    map ip | ip in ledger.Keys + (chosen * Ips(log)) :: if ip in ledger then ledger[ip] else FirstLogged(log, ip)
  }

  function Freeze(log: seq<Row>, ledger: Ledger): Ledger {
    Upsert(log, ledger, ExternalIps(log))
  }

  function ExternalIps(log: seq<Row>): set<Ip> {
    set ip | ip in Ips(log) && External(ip)
  }

  function Prune(log: seq<Row>, now: int): seq<Row> {
    Filter(log, Since(now - LOG_DAYS))
  }

  class Tables {
    var requestLog: seq<Row>
    var knownCallers: Ledger

    constructor (requestLog: seq<Row>, knownCallers: Ledger)
      ensures this.requestLog == requestLog && this.knownCallers == knownCallers
    {
      this.requestLog, this.knownCallers := requestLog, knownCallers;
    }

    /**
     Freeze, roll up, prune. No entry of the ledger changes, each external caller of the log is in
     it afterwards, and a row is gone only if the rollup worked, the row was past the limit, and
     its caller, if external, is in the ledger with a time not later than the row's unless a row
     of the ledger said otherwise before.
     */
    method Retention(now: int, rollupOk: bool) returns (deleted: nat)
      modifies this
      ensures forall ip :: ip in old(knownCallers) ==> ip in knownCallers && knownCallers[ip] == old(knownCallers)[ip]
      ensures forall r :: r in old(requestLog) && External(r.ip) ==>
                r.ip in knownCallers && (r.ip in old(knownCallers) || knownCallers[r.ip] <= r.ts)
      ensures forall r :: r in old(requestLog) && r !in requestLog ==> rollupOk && r.ts < now - 30 * 86400
      ensures forall r :: r in requestLog ==> r in old(requestLog) && (rollupOk ==> r.ts >= now - 30 * 86400)
      ensures knownCallers == Freeze(old(requestLog), old(knownCallers))
      ensures requestLog == if rollupOk then Prune(old(requestLog), now) else old(requestLog)
      ensures deleted == |old(requestLog)| - |requestLog|
    {
      FreezeCovers(requestLog, knownCallers);
      PruneDrops(requestLog, now);
      knownCallers := Freeze(requestLog, knownCallers);
      if !rollupOk {
        return 0;
      }
      var before := |requestLog|;
      FilterShrinks(requestLog, Since(now - LOG_DAYS));
      requestLog := Prune(requestLog, now);
      deleted := before - |requestLog|;
    }
  }

  lemma FreezeCovers(log: seq<Row>, ledger: Ledger)
    ensures forall ip :: ip in ledger ==> ip in Freeze(log, ledger) && Freeze(log, ledger)[ip] == ledger[ip]
    ensures forall r :: r in log && External(r.ip) ==>
              r.ip in Freeze(log, ledger) && (r.ip in ledger || Freeze(log, ledger)[r.ip] <= r.ts)
  {
    forall r | r in log && External(r.ip)
      ensures r.ip in Freeze(log, ledger) && (r.ip in ledger || Freeze(log, ledger)[r.ip] <= r.ts)
    {
      FilterMember(log, SameIp(r.ip), r);
      HasRows(log, r.ip);
    }
  }

  lemma PruneDrops(log: seq<Row>, now: int)
    ensures forall r :: r in Prune(log, now) <==> r in log && r.ts >= now - LOG_DAYS
  {
    forall r ensures r in Prune(log, now) <==> r in log && r.ts >= now - LOG_DAYS {
      FilterMember(log, Since(now - LOG_DAYS), r);
    }
  }

  lemma {:induction false} FilterShrinks<T>(s: seq<T>, keep: T -> bool)
    ensures |Filter(s, keep)| <= |s|
  {
    if s != [] {
      FilterShrinks(s[1..], keep);
    }
  }

  // ----- histories -----

  /** The two tables, every row ever logged, and when the running job froze the ledger. */
  datatype State = State(log: seq<Row>, ledger: Ledger, history: seq<Row>, frozenAt: Option<int>, clock: int)

  /** One statement at a time; rows may arrive between the statements of a job. */
  datatype Step =
    | Logged(ip: Ip)
    | JobFreezes
    | RollupFails
    | JobPrunes
    | MonitorUpserts(active: set<Ip>)

  predicate Enabled(s: State, step: Step, now: int) {
    && s.clock <= now
    && (step.RollupFails? || step.JobPrunes? ==> s.frozenAt.Some?)
    && (step.JobPrunes? ==> now - s.frozenAt.value <= LOG_DAYS)
    && (step.MonitorUpserts? ==> forall ip :: ip in step.active ==> External(ip))
  }

  function Next(s: State, step: Step, now: int): State {
    match step
    case Logged(ip) => s.(log := s.log + [Row(ip, now)], history := s.history + [Row(ip, now)], clock := now)
    case JobFreezes => s.(ledger := Freeze(s.log, s.ledger), frozenAt := Some(now), clock := now)
    case RollupFails => s.(frozenAt := None, clock := now)
    case JobPrunes => s.(log := Prune(s.log, now), frozenAt := None, clock := now)
    case MonitorUpserts(active) => s.(ledger := Upsert(s.log, s.ledger, active), clock := now)
  }

  ghost predicate Sane(s: State, curated: set<Ip>) {
    && (forall r :: r in s.log ==> r in s.history)
    && (forall r :: r in s.history ==> r.ts <= s.clock)
    && (s.frozenAt.Some? ==> s.frozenAt.value <= s.clock)
    && (forall ip :: External(ip) && ip !in curated ==> Remembered(s, ip))
  }

  /** A caller is either in the ledger with its first appearance, or none of its rows is gone. */
  ghost predicate Remembered(s: State, ip: Ip) {
    if ip in s.ledger then
      RowsOf(s.history, ip) != [] && s.ledger[ip] == MinTs(RowsOf(s.history, ip))
    else
      && RowsOf(s.log, ip) == RowsOf(s.history, ip)
      && (s.frozenAt.Some? ==> forall r :: r in RowsOf(s.log, ip) ==> r.ts >= s.frozenAt.value)
  }

  lemma LoggedKeeps(s: State, curated: set<Ip>, who: Ip, now: int, ip: Ip)
    requires Sane(s, curated) && Enabled(s, Logged(who), now) && External(ip) && ip !in curated
    ensures Remembered(Next(s, Logged(who), now), ip)
  {
    var row := [Row(who, now)];
    FilterAppend(s.log, row, SameIp(ip));
    FilterAppend(s.history, row, SameIp(ip));
    assert Remembered(s, ip);
    if ip in s.ledger {
      forall r | r in RowsOf(s.history, ip) ensures r.ts <= now {
        FilterMember(s.history, SameIp(ip), r);
      }
      MinOfLater(RowsOf(s.history, ip), RowsOf(row, ip), now);
    }
  }

  lemma MinOfLater(rows: seq<Row>, more: seq<Row>, now: int)
    requires rows != [] && forall r :: r in rows ==> r.ts <= now
    requires forall r :: r in more ==> r.ts == now
    ensures MinTs(rows + more) == MinTs(rows)
  {
    var all := rows + more;
    var m, n := MinTs(rows), MinTs(all);
    var a :| a in rows && m == a.ts;
    assert a in all;
    var b :| b in all && n == b.ts;
    assert b in rows || b in more;
  }

  lemma UpsertKeeps(s: State, curated: set<Ip>, chosen: set<Ip>, frozenAt: Option<int>, now: int, ip: Ip)
    requires Sane(s, curated) && External(ip) && ip !in curated && s.clock <= now
    requires frozenAt == s.frozenAt || (frozenAt == Some(now) && chosen == ExternalIps(s.log))
    ensures Remembered(State(s.log, Upsert(s.log, s.ledger, chosen), s.history, frozenAt, now), ip)
  {
    assert Remembered(s, ip);
    HasRows(s.log, ip);
    HasRows(s.history, ip);
  }

  lemma PruneKeeps(s: State, curated: set<Ip>, now: int, ip: Ip)
    requires Sane(s, curated) && Enabled(s, JobPrunes, now) && External(ip) && ip !in curated
    ensures Remembered(Next(s, JobPrunes, now), ip)
  {
    assert Remembered(s, ip);
    if ip !in s.ledger {
      forall r | r in s.log && r.ip == ip ensures r.ts >= now - LOG_DAYS {
        FilterMember(s.log, SameIp(ip), r);
      }
      FiltersAgree(s.log, ip, now - LOG_DAYS);
    }
  }

  lemma {:induction false} FiltersAgree(log: seq<Row>, ip: Ip, cutoff: int)
    requires forall r :: r in log && r.ip == ip ==> r.ts >= cutoff
    ensures RowsOf(Filter(log, Since(cutoff)), ip) == RowsOf(log, ip)
  {
    FilterTwice(log, Since(cutoff), SameIp(ip), SameIp(ip));
  }

  /** No row of a caller outside the ledger is pruned. */
  lemma PrunedWereFrozen(s: State, curated: set<Ip>, now: int, r: Row)
    requires Sane(s, curated) && Enabled(s, JobPrunes, now)
    requires r in s.log && r !in Prune(s.log, now) && External(r.ip) && r.ip !in curated
    ensures r.ip in s.ledger && s.ledger[r.ip] <= r.ts
  {
    FilterMember(s.log, Since(now - LOG_DAYS), r);
    FilterMember(s.log, SameIp(r.ip), r);
    assert Remembered(s, r.ip);
    if r.ip in s.ledger {
      FilterMember(s.history, SameIp(r.ip), r);
    }
  }

  ghost predicate Legal(s: State, steps: seq<(Step, int)>)
    decreases |steps|
  {
    steps == [] || (Enabled(s, steps[0].0, steps[0].1) && Legal(Next(s, steps[0].0, steps[0].1), steps[1..]))
  }

  function Run(s: State, steps: seq<(Step, int)>): State
    decreases |steps|
  {
    if steps == [] then s else Run(Next(s, steps[0].0, steps[0].1), steps[1..])
  }

  lemma StepKeeps(s: State, curated: set<Ip>, step: Step, now: int)
    requires Sane(s, curated) && Enabled(s, step, now)
    ensures Sane(Next(s, step, now), curated)
  {
    var t := Next(s, step, now);
    forall ip | External(ip) && ip !in curated ensures Remembered(t, ip) {
      match step
      case Logged(who) => LoggedKeeps(s, curated, who, now, ip);
      case JobFreezes => UpsertKeeps(s, curated, ExternalIps(s.log), Some(now), now, ip);
      case RollupFails => assert Remembered(s, ip);
      case JobPrunes => PruneKeeps(s, curated, now, ip);
      case MonitorUpserts(active) => UpsertKeeps(s, curated, active, s.frozenAt, now, ip);
    }
    if step.JobPrunes? {
      forall r | r in t.log ensures r in s.history {
        FilterMember(s.log, Since(now - LOG_DAYS), r);
      }
    }
  }

  lemma {:induction false} RunKeeps(s: State, curated: set<Ip>, steps: seq<(Step, int)>)
    requires Sane(s, curated) && Legal(s, steps)
    ensures Sane(Run(s, steps), curated)
    decreases |steps|
  {
    if steps != [] {
      StepKeeps(s, curated, steps[0].0, steps[0].1);
      RunKeeps(Next(s, steps[0].0, steps[0].1), curated, steps[1..]);
    }
  }

  /** The time the monitor goes by: the ledger's, else the earliest row. */
  function MonitorFirstSeen(s: State, ip: Ip): int
    requires ip in Ips(s.log)
  {
    if ip in s.ledger then s.ledger[ip] else FirstLogged(s.log, ip)
  }

  /**
   Over any interleaving of requests, retention jobs and monitor runs from empty logs, with times
   that do not go back and no job pruning more than thirty days after it froze: every external
   caller without a curated row keeps the time of its very first request, in the ledger and in
   the monitor's eyes, so it never becomes new again.
   */
  lemma FirstSeenIsForever(curated: Ledger, start: int, steps: seq<(Step, int)>, ip: Ip)
    requires Legal(State([], curated, [], None, start), steps)
    requires External(ip) && ip !in curated
    ensures var s := Run(State([], curated, [], None, start), steps);
            && (ip in s.ledger ==> RowsOf(s.history, ip) != [] && s.ledger[ip] == MinTs(RowsOf(s.history, ip)))
            && (ip !in s.ledger ==> RowsOf(s.log, ip) == RowsOf(s.history, ip))
            && (ip in Ips(s.log) ==> RowsOf(s.history, ip) != [] && MonitorFirstSeen(s, ip) == MinTs(RowsOf(s.history, ip)))
  {
    var s0 := State([], curated, [], None, start);
    RunKeeps(s0, curated.Keys, steps);
    var s := Run(s0, steps);
    assert Remembered(s, ip);
    HasRows(s.log, ip);
  }

  /** Why the thirty days matter: a row already past the limit when it arrives between freeze and prune is forgotten. */
  lemma LateRowIsForgotten(log: seq<Row>, ledger: Ledger, ip: Ip, ts: int, now: int)
    requires ip !in ledger && ip !in Ips(log) && ts < now - 30 * 86400
    ensures var pruned := Prune(log + [Row(ip, ts)], now); ip !in Freeze(pruned, ledger)
  {
    var row := Row(ip, ts);
    var pruned := Prune(log + [row], now);
    forall r | r in pruned ensures r.ip != ip {
      FilterMember(log + [row], Since(now - LOG_DAYS), r);
      assert r in log || r == row;
    }
  }
}
