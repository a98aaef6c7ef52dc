/**
What a session is billed for: the fold of `src/session-manager/payroll.ts` over the session's
log. Times are milliseconds.
*/
module Payroll {
  import opened Common

  type TurnId = nat

  datatype Usage = Usage(inputTokens: int, outputTokens: int, cacheRead: int, cacheCreate: int) {
    function Plus(u: Usage): Usage {
      Usage(inputTokens + u.inputTokens, outputTokens + u.outputTokens, cacheRead + u.cacheRead, cacheCreate + u.cacheCreate)
    }
  }

  const NONE := Usage(0, 0, 0, 0)

  datatype Event =
    | TurnStarted(turn: TurnId, ts: int)
    | TurnEnded(turn: TurnId, ts: int)
    | UsageOf(turn: TurnId, usage: Usage, ts: int)
    | Restarted
    | UsageUnavailable
    | Other

  datatype Row = Row(turn: TurnId, usage: Usage, startedAt: int, endedAt: Option<int>)

  datatype View = View(burn: Usage, idleMs: int, droppedIntervals: nat, usageUnavailable: bool, turns: seq<Row>)

  // ---------------------------------------------------------------- meaning

  /** All usage the log reports. */
  ghost function Reported(log: seq<Event>): Usage {
    if log == [] then NONE
    else
      var e := log[|log| - 1];
      if e.UsageOf? then Reported(log[..|log| - 1]).Plus(e.usage) else Reported(log[..|log| - 1])
  }

  /** All usage the log reports for one turn. */
  ghost function ReportedFor(log: seq<Event>, t: TurnId): Usage {
    if log == [] then NONE
    else
      var e := log[|log| - 1];
      var before := ReportedFor(log[..|log| - 1], t);
      if e.UsageOf? && e.turn == t then before.Plus(e.usage) else before
  }

  ghost function Total(rows: seq<Row>): Usage {
    if rows == [] then NONE else rows[0].usage.Plus(Total(rows[1..]))
  }

  /** The time spent in turns that have ended. */
  ghost function InTurns(rows: seq<Row>): int {
    if rows == [] then 0
    else (if rows[0].endedAt.Some? then rows[0].endedAt.value - rows[0].startedAt else 0) + InTurns(rows[1..])
  }

  /** Reading a log whose turns are bracketed: the open turn, and every turn so far. */
  datatype Bracket = Broken | Fine(open: Option<TurnId>, seen: set<TurnId>)

  ghost function Brackets(log: seq<Event>): Bracket {
    if log == [] then Fine(None, {})
    else
      var b := Brackets(log[..|log| - 1]);
      if b.Broken? then Broken
      else
        match log[|log| - 1]
        case TurnStarted(t, _) => if b.open.None? && t !in b.seen then Fine(Some(t), b.seen + {t}) else Broken
        case TurnEnded(t, _) => if b.open == Some(t) then Fine(None, b.seen) else Broken
        case UsageOf(t, _, _) => if t in b.seen then b else Broken
        case Restarted => Broken
        case _ => b
  }

  /** Turns start once and one at a time, each ends, usage names a turn that has started, and the
      server did not restart. */
  ghost predicate Bracketed(log: seq<Event>) {
    Brackets(log).Fine? && Brackets(log).open.None?
  }

  /** The last turn boundary is a start. */
  ghost predicate InTurn(log: seq<Event>) {
    log != [] && (log[|log| - 1].TurnStarted? || (!log[|log| - 1].TurnEnded? && InTurn(log[..|log| - 1])))
  }

  /** The first restart came between two turns. */
  ghost predicate RestartCutIdle(log: seq<Event>) {
    log != [] && (RestartCutIdle(log[..|log| - 1]) ||
                  (log[|log| - 1].Restarted? && Restarted !in log[..|log| - 1] && !InTurn(log[..|log| - 1])))
  }

  // ---------------------------------------------------------------- rows

  function FindRow(rows: seq<Row>, t: TurnId): (k: Option<nat>)
    ensures k.Some? ==> k.value < |rows| && rows[k.value].turn == t
    ensures k.None? ==> forall i | 0 <= i < |rows| :: rows[i].turn != t
  {
    if rows == [] then None
    else if rows[0].turn == t then Some(0)
    else
      var k := FindRow(rows[1..], t);
      assert forall i | 1 <= i < |rows| :: rows[i] == rows[1..][i - 1];
      if k.Some? then Some(k.value + 1) else None
  }

  ghost predicate OneRowEach(rows: seq<Row>) {
    forall i, j | 0 <= i < j < |rows| :: rows[i].turn != rows[j].turn
  }

  lemma {:induction false} TotalSet(rows: seq<Row>, k: nat, r: Row)
    requires k < |rows|
    ensures Total(rows[k := r]).Plus(rows[k].usage) == Total(rows).Plus(r.usage)
    ensures InTurns(rows[k := r]) - InTurns([r]) == InTurns(rows) - InTurns([rows[k]])
  {
    assert [r][1..] == [] && [rows[k]][1..] == [];
    if k == 0 {
      assert rows[0 := r][1..] == rows[1..];
    } else {
      TotalSet(rows[1..], k - 1, r);
      assert rows[k := r][1..] == rows[1..][k - 1 := r];
    }
  }

  lemma {:induction false} TotalAdd(rows: seq<Row>, r: Row)
    ensures Total(rows + [r]) == Total(rows).Plus(r.usage)
    ensures InTurns(rows + [r]) == InTurns(rows) + InTurns([r])
  {
    assert [r][1..] == [];
    if rows == [] {
      assert rows + [r] == [r];
    } else {
      TotalAdd(rows[1..], r);
      assert (rows + [r])[1..] == rows[1..] + [r];
    }
  }

  /** `turnAt`: the row of a turn, made when the turn is first named. */
  function TurnAt(rows: seq<Row>, t: TurnId, at: int): (r: (seq<Row>, nat))
    ensures r.1 < |r.0| && r.0[r.1].turn == t
  {
    var k := FindRow(rows, t);
    if k.Some? then (rows, k.value) else (rows + [Row(t, NONE, at, None)], |rows|)
  }

  // ---------------------------------------------------------------- what the loop keeps

  ghost predicate RowsTell(log: seq<Event>, rows: seq<Row>) {
    && OneRowEach(rows)
    && (forall i | 0 <= i < |rows| :: rows[i].usage == ReportedFor(log, rows[i].turn))
    && (forall t | FindRow(rows, t).None? :: ReportedFor(log, t) == NONE)
  }

  /** All time up to the last turn boundary is either idle or spent in a turn. */
  ghost predicate TimeTells(log: seq<Event>, createdAt: int, rows: seq<Row>, cursor: Option<int>, idle: int) {
    var b := Brackets(log);
    b.Fine? ==>
      && (forall t :: t in b.seen <==> FindRow(rows, t).Some?)
      && (if b.open.Some? then
            var k := FindRow(rows, b.open.value);
            cursor.None? && k.Some? && rows[k.value].endedAt.None? && idle + InTurns(rows) == rows[k.value].startedAt - createdAt
          else cursor.Some? && idle + InTurns(rows) == cursor.value - createdAt)
  }

  lemma {:induction false} FindOnly(rows: seq<Row>, k: nat)
    requires OneRowEach(rows) && k < |rows|
    ensures FindRow(rows, rows[k].turn) == Some(k)
  {
    if k > 0 {
      assert rows[0].turn != rows[k].turn;
      FindOnly(rows[1..], k - 1);
    }
  }

  /** A changed row is still the row of its turn. */
  lemma SetRow(rows: seq<Row>, k: nat, r: Row)
    requires OneRowEach(rows) && k < |rows| && r.turn == rows[k].turn
    ensures OneRowEach(rows[k := r])
    ensures forall t :: FindRow(rows[k := r], t) == FindRow(rows, t)
  {
    var after := rows[k := r];
    assert forall i | 0 <= i < |rows| :: after[i].turn == rows[i].turn;
    forall t ensures FindRow(after, t) == FindRow(rows, t) {
      if FindRow(rows, t).Some? { FindOnly(after, FindRow(rows, t).value); }
    }
  }

  lemma AddRow(rows: seq<Row>, r: Row)
    requires OneRowEach(rows) && FindRow(rows, r.turn).None?
    ensures OneRowEach(rows + [r])
    ensures forall t :: FindRow(rows + [r], t) == if t == r.turn then Some(|rows|) else FindRow(rows, t)
  {
    var after := rows + [r];
    forall t ensures FindRow(after, t) == if t == r.turn then Some(|rows|) else FindRow(rows, t) {
      if t == r.turn {
        FindOnly(after, |rows|);
      } else if FindRow(rows, t).Some? {
        FindOnly(after, FindRow(rows, t).value);
      }
    }
  }

  lemma Snoc(log: seq<Event>, e: Event, t: TurnId)
    ensures (log + [e])[..|log|] == log
    ensures ReportedFor(log + [e], t) == if e.UsageOf? && e.turn == t then ReportedFor(log, t).Plus(e.usage) else ReportedFor(log, t)
  {
  }

  lemma BracketsSnoc(log: seq<Event>, e: Event)
    ensures (log + [e])[..|log|] == log
    ensures Brackets(log).Broken? ==> Brackets(log + [e]).Broken?
  {
  }

  /** A row made for a turn that the log has not named before. */
  lemma TurnAtTells(log: seq<Event>, rows: seq<Row>, t: TurnId, at: int)
    requires RowsTell(log, rows)
    ensures var r := TurnAt(rows, t, at); RowsTell(log, r.0) && Total(r.0) == Total(rows) && InTurns(r.0) == InTurns(rows)
    ensures forall u :: FindRow(TurnAt(rows, t, at).0, u) == if u == t then Some(TurnAt(rows, t, at).1) else FindRow(rows, u)
  {
    hide FindRow, ReportedFor, Total, InTurns;
    if FindRow(rows, t).None? {
      var r := Row(t, NONE, at, None);
      AddRow(rows, r);
      TotalAdd(rows, r);
      NewRow(r);
    }
  }

  lemma NewRow(r: Row)
    ensures InTurns([r]) == if r.endedAt.Some? then r.endedAt.value - r.startedAt else 0
  {
    assert [r][1..] == [];
  }

  lemma QuietTells(log: seq<Event>, e: Event, rows: seq<Row>)
    requires RowsTell(log, rows) && !e.UsageOf?
    ensures RowsTell(log + [e], rows)
  {
    forall t ensures ReportedFor(log + [e], t) == ReportedFor(log, t) { Snoc(log, e, t); }
  }

  lemma UsageTells(log: seq<Event>, e: Event, rows: seq<Row>, k: nat)
    requires RowsTell(log, rows) && e.UsageOf? && k < |rows| && rows[k].turn == e.turn
    ensures var after := rows[k := rows[k].(usage := rows[k].usage.Plus(e.usage))];
      RowsTell(log + [e], after) && Total(after) == Total(rows).Plus(e.usage) && InTurns(after) == InTurns(rows)
  {
    var r := rows[k].(usage := rows[k].usage.Plus(e.usage));
    SetRow(rows, k, r);
    TotalSet(rows, k, r);
    assert [r][1..] == [] && [rows[k]][1..] == [];
    forall t ensures t != e.turn ==> ReportedFor(log + [e], t) == ReportedFor(log, t) { Snoc(log, e, t); }
    Snoc(log, e, e.turn);
    forall i | 0 <= i < |rows| && i != k ensures rows[i].turn != e.turn {
      assert if i < k then rows[i].turn != rows[k].turn else rows[k].turn != rows[i].turn;
    }
    FindOnly(rows, k);
  }

  lemma EndRow(log: seq<Event>, rows: seq<Row>, k: nat, ts: int)
    requires RowsTell(log, rows) && k < |rows|
    ensures var after := rows[k := rows[k].(endedAt := Some(ts))];
      && RowsTell(log, after) && Total(after) == Total(rows)
      && (rows[k].endedAt.None? ==> InTurns(after) == InTurns(rows) + ts - rows[k].startedAt)
      && forall t :: FindRow(after, t) == FindRow(rows, t)
  {
    var r := rows[k].(endedAt := Some(ts));
    SetRow(rows, k, r);
    TotalSet(rows, k, r);
    assert [r][1..] == [] && [rows[k]][1..] == [];
  }

  // ---------------------------------------------------------------- the fold

  ghost predicate Tells(log: seq<Event>, createdAt: int, burn: Usage, rows: seq<Row>, cursor: Option<int>, idle: int, restarted: bool) {
    && burn == Reported(log) == Total(rows) && RowsTell(log, rows)
    && TimeTells(log, createdAt, rows, cursor, idle)
    && (restarted ==> Brackets(log).Broken?)
  }

  /** `made` is `rows` with a row for turn `t`. */
  ghost predicate Made(rows: seq<Row>, made: seq<Row>, k: nat, t: TurnId, at: int) {
    && InTurns(made) == InTurns(rows) && k < |made|
    && (FindRow(rows, t).None? ==> made[k] == Row(t, NONE, at, None))
    && FindRow(made, t) == Some(k)
    && (forall u | u != t :: FindRow(made, u) == FindRow(rows, u))
    && (forall i | 0 <= i < |rows| && i < |made| :: made[i] == rows[i])
  }

  lemma TurnAtMade(log: seq<Event>, rows: seq<Row>, t: TurnId, at: int)
    requires RowsTell(log, rows)
    ensures Made(rows, TurnAt(rows, t, at).0, TurnAt(rows, t, at).1, t, at)
  {
    TurnAtTells(log, rows, t, at);
    hide FindRow, InTurns, RowsTell;
  }

  lemma StartTime(log: seq<Event>, createdAt: int, rows: seq<Row>, made: seq<Row>, k: nat, cursor: Option<int>, idle: int, t: TurnId, ts: int)
    requires TimeTells(log, createdAt, rows, cursor, idle) && Made(rows, made, k, t, ts)
    ensures TimeTells(log + [TurnStarted(t, ts)], createdAt, made, None, if cursor.Some? then idle + ts - cursor.value else idle)
  {
    hide FindRow, InTurns, Brackets;
    OpensAt(log, t, ts);
  }

  lemma OpensAt(log: seq<Event>, t: TurnId, ts: int)
    ensures var b, c := Brackets(log), Brackets(log + [TurnStarted(t, ts)]);
      if b.Fine? && b.open.None? && t !in b.seen then c == Fine(Some(t), b.seen + {t}) else c.Broken?
  {
    BracketsSnoc(log, TurnStarted(t, ts));
  }

  lemma StartTells(log: seq<Event>, createdAt: int, burn: Usage, rows: seq<Row>, cursor: Option<int>, idle: int, restarted: bool, t: TurnId, ts: int)
    requires Tells(log, createdAt, burn, rows, cursor, idle, restarted)
    ensures Tells(log + [TurnStarted(t, ts)], createdAt, burn, TurnAt(rows, t, ts).0, None,
                  if cursor.Some? then idle + ts - cursor.value else idle, restarted)
  {
    hide FindRow, ReportedFor, Total, InTurns, RowsTell, TimeTells;
    TurnAtTells(log, rows, t, ts);
    TurnAtMade(log, rows, t, ts);
    StartTime(log, createdAt, rows, TurnAt(rows, t, ts).0, TurnAt(rows, t, ts).1, cursor, idle, t, ts);
    QuietTells(log, TurnStarted(t, ts), TurnAt(rows, t, ts).0);
    BracketsSnoc(log, TurnStarted(t, ts));
  }

  lemma EndTime(log: seq<Event>, createdAt: int, rows: seq<Row>, cursor: Option<int>, idle: int, t: TurnId, ts: int)
    requires TimeTells(log, createdAt, rows, cursor, idle) && RowsTell(log, rows)
    ensures var (made, k) := TurnAt(rows, t, ts);
      TimeTells(log + [TurnEnded(t, ts)], createdAt, made[k := made[k].(endedAt := Some(ts))], Some(ts), idle)
  {
    TurnAtTells(log, rows, t, ts);
    var (made, k) := TurnAt(rows, t, ts);
    EndRow(log, made, k, ts);
    hide FindRow, InTurns, RowsTell;
    BracketsSnoc(log, TurnEnded(t, ts));
  }

  lemma EndTells(log: seq<Event>, createdAt: int, burn: Usage, rows: seq<Row>, cursor: Option<int>, idle: int, restarted: bool, t: TurnId, ts: int)
    requires Tells(log, createdAt, burn, rows, cursor, idle, restarted)
    ensures var (made, k) := TurnAt(rows, t, ts);
      Tells(log + [TurnEnded(t, ts)], createdAt, burn, made[k := made[k].(endedAt := Some(ts))],
            if restarted then cursor else Some(ts), idle, restarted)
  {
    hide FindRow, ReportedFor, Total, InTurns, RowsTell;
    TurnAtTells(log, rows, t, ts);
    var (made, k) := TurnAt(rows, t, ts);
    EndRow(log, made, k, ts);
    EndTime(log, createdAt, rows, cursor, idle, t, ts);
    hide TimeTells;
    QuietTells(log, TurnEnded(t, ts), made[k := made[k].(endedAt := Some(ts))]);
    BracketsSnoc(log, TurnEnded(t, ts));
  }

  lemma UseTells(log: seq<Event>, createdAt: int, burn: Usage, rows: seq<Row>, cursor: Option<int>, idle: int, restarted: bool, t: TurnId, usage: Usage, ts: int)
    requires Tells(log, createdAt, burn, rows, cursor, idle, restarted)
    ensures var (made, k) := TurnAt(rows, t, ts);
      Tells(log + [UsageOf(t, usage, ts)], createdAt, burn.Plus(usage), made[k := made[k].(usage := made[k].usage.Plus(usage))],
            cursor, idle, restarted)
  {
    hide FindRow, ReportedFor, Total, InTurns;
    TurnAtTells(log, rows, t, ts);
    var (made, k) := TurnAt(rows, t, ts);
    SetRow(made, k, made[k].(usage := made[k].usage.Plus(usage)));
    hide RowsTell;
    UsageTells(log, UsageOf(t, usage, ts), made, k);
    assert (log + [UsageOf(t, usage, ts)])[..|log|] == log;
  }

  /** A restart ends what can be told about time; other events change nothing. */
  lemma QuietEvent(log: seq<Event>, createdAt: int, burn: Usage, rows: seq<Row>, cursor: Option<int>, idle: int, restarted: bool, e: Event)
    requires Tells(log, createdAt, burn, rows, cursor, idle, restarted) && (e.Restarted? || e.UsageUnavailable? || e.Other?)
    ensures Tells(log + [e], createdAt, burn, rows, if e.Restarted? then None else cursor, idle, restarted || e.Restarted?)
  {
    hide FindRow, ReportedFor, Total, InTurns, RowsTell;
    QuietTells(log, e, rows);
    assert (log + [e])[..|log|] == log;
  }

  /** Idle time is no longer counted once the server has restarted. */
  ghost predicate RestartTells(log: seq<Event>, cursor: Option<int>, restarted: bool, dropped: nat) {
    && (restarted <==> Restarted in log)
    && (if restarted then cursor.None? else cursor.None? <==> InTurn(log))
    && dropped == (if RestartCutIdle(log) then 1 else 0) && (!restarted ==> dropped == 0)
  }

  lemma RestartStep(log: seq<Event>, e: Event, cursor: Option<int>, restarted: bool, dropped: nat)
    requires RestartTells(log, cursor, restarted, dropped)
    ensures RestartTells(log + [e],
      if e.TurnStarted? || e.Restarted? then None else if e.TurnEnded? && !restarted then Some(e.ts) else cursor,
      restarted || e.Restarted?, if e.Restarted? && cursor.Some? then dropped + 1 else dropped)
  {
    assert (log + [e])[..|log|] == log;
  }

  /** The burn is what the log reports and what the rows add up to, each row holds its own turn's
      share; and when the turns are bracketed and the session has ended, its whole life is either
      idle or spent in turns. */
  method FoldPayroll(log: seq<Event>, createdAt: int, endedAt: Option<int>) returns (v: View)
    ensures v.burn == Reported(log) == Total(v.turns) && RowsTell(log, v.turns)
    ensures Bracketed(log) && endedAt.Some? ==> v.idleMs + InTurns(v.turns) == endedAt.value - createdAt
    ensures v.droppedIntervals == if RestartCutIdle(log) then 1 else 0
    ensures v.usageUnavailable <==> UsageUnavailable in log
  {
    var burn, rows: seq<Row>, idle, dropped := NONE, [], 0, 0;
    var cursor: Option<int>, restarted, unavailable := Some(createdAt), false, false;
    for i := 0 to |log|
      invariant Tells(log[..i], createdAt, burn, rows, cursor, idle, restarted)
      invariant RestartTells(log[..i], cursor, restarted, dropped)
      invariant unavailable <==> UsageUnavailable in log[..i]
    {
      hide Tells, TurnAt, RestartTells;
      RestartStep(log[..i], log[i], cursor, restarted, dropped);
      assert log[..i + 1] == log[..i] + [log[i]];
      match log[i]
      case TurnStarted(t, ts) =>
        StartTells(log[..i], createdAt, burn, rows, cursor, idle, restarted, t, ts);
        if cursor.Some? { idle := idle + ts - cursor.value; }
        cursor := None;
        rows := TurnAt(rows, t, ts).0;
      case TurnEnded(t, ts) =>
        EndTells(log[..i], createdAt, burn, rows, cursor, idle, restarted, t, ts);
        if !restarted { cursor := Some(ts); }
        var (made, k) := TurnAt(rows, t, ts);
        rows := made[k := made[k].(endedAt := Some(ts))];
      case UsageOf(t, usage, ts) =>
        UseTells(log[..i], createdAt, burn, rows, cursor, idle, restarted, t, usage, ts);
        burn := burn.Plus(usage);
        var (made, k) := TurnAt(rows, t, ts);
        rows := made[k := made[k].(usage := made[k].usage.Plus(usage))];
      case Restarted =>
        QuietEvent(log[..i], createdAt, burn, rows, cursor, idle, restarted, log[i]);
        if cursor.Some? { dropped := dropped + 1; }
        cursor, restarted := None, true;
      case UsageUnavailable =>
        QuietEvent(log[..i], createdAt, burn, rows, cursor, idle, restarted, log[i]);
        unavailable := true;
      case Other =>
        QuietEvent(log[..i], createdAt, burn, rows, cursor, idle, restarted, log[i]);
    }
    assert log[..|log|] == log;
    if cursor.Some? && endedAt.Some? { idle := idle + endedAt.value - cursor.value; }
    return View(burn, idle, dropped, unavailable, rows);
  }
}
