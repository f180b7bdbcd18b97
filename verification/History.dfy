/** The history database as a prune changes it: tables updated in place inside transactions that can fail. */
module History {
  import opened Common
  import opened Retention

  class History {
    var tables: seq<Table>

    constructor (loaded: seq<Table>)
      ensures tables == loaded
    {
      tables := loaded;
    }

    /**
     * The row budget, in one transaction. `failing` is the statement that raises, if one does: the
     * table being trimmed, or the commit.
     */
    method TrimToBudget(max: nat, failing: Option<nat>) returns (removed: nat, ok: bool)
      requires failing.Some? ==> failing.value <= |tables|
      modifies this
      ensures ok == failing.None?
      ensures tables == if ok then BudgetAll(old(tables), max) else old(tables)
      ensures removed == if ok then Total(old(tables)) - Total(tables) else 0
    {
      var begun := tables;
      removed := 0;
      var n := 0;
      while n < |tables| && failing != Some(n)
        invariant n <= |tables| == |begun| && (failing.Some? ==> n <= failing.value)
        invariant Midway(begun, tables, n, BudgetAll(begun[..n], max), removed)
      {
        var t := Budgeted(tables[n], max);
        BudgetIsAPart(tables[n], max);
        NextTable(begun, tables, n, t, BudgetAll(begun[..n], max), removed);
        removed := removed + |tables[n]| - |t|;
        tables := tables[n := t];
        n := n + 1;
      }
      if failing.Some? {
        // ROLLBACK
        tables := begun;
        return 0, false;
      }
      LastTable(begun, tables, n, BudgetAll(begun[..n], max), removed);
      ok := true;
    }

    /** The window for one table, or its refusal. */
    method SweepTable(n: nat, cutoff: int) returns (removed: nat, refused: seq<Refusal>)
      requires n < |tables|
      modifies this
      ensures tables == old(tables)[n := Swept(old(tables)[n], cutoff)]
      ensures removed == |old(tables)[n]| - |tables[n]|
      ensures refused == if Refuses(old(tables)[n], cutoff)
                         then [Refusal(n, Doomed(old(tables)[n], cutoff), |old(tables)[n]|)]
                         else []
    {
      var total := |tables[n]|;
      SweptIsAPart(tables[n], cutoff);
      removed, refused := 0, [];
      if total == 0 {
        return;
      }
      var doomed := Doomed(tables[n], cutoff);
      if total >= PRUNE_MIN_TABLE_ROWS && 4 * doomed > total {
        refused := [Refusal(n, doomed, total)];
        return;
      }
      var kept := Since(tables[n], cutoff);
      removed := total - |kept|;
      tables := tables[n := kept];
    }

    /** The retention window, in one transaction, table by table. */
    method SweepWindow(cutoff: int, failing: Option<nat>) returns (removed: nat, refused: seq<Refusal>, ok: bool)
      requires failing.Some? ==> failing.value <= |tables|
      modifies this
      ensures ok == failing.None?
      ensures tables == if ok then SweepAll(old(tables), cutoff) else old(tables)
      ensures refused == if ok then Refusals(old(tables), cutoff) else []
      ensures removed == if ok then Total(old(tables)) - Total(tables) else 0
    {
      var begun := tables;
      removed, refused := 0, [];
      var n := 0;
      while n < |tables| && failing != Some(n)
        invariant n <= |tables| == |begun| && (failing.Some? ==> n <= failing.value)
        invariant Midway(begun, tables, n, SweepAll(begun[..n], cutoff), removed)
        invariant refused == Refusals(begun[..n], cutoff)
      {
        NextTable(begun, tables, n, Swept(tables[n], cutoff), SweepAll(begun[..n], cutoff), removed);
        SweepNext(begun, n, cutoff);
        var more, refusal := SweepTable(n, cutoff);
        removed, refused := removed + more, refused + refusal;
        n := n + 1;
      }
      if failing.Some? {
        // ROLLBACK
        tables := begun;
        return 0, [], false;
      }
      LastTable(begun, tables, n, SweepAll(begun[..n], cutoff), removed);
      ok := true;
    }

    /**
     * `prune`. A failure raises (`None`): in the budget it changes nothing, in the window it leaves
     * the budget, which is committed already.
     */
    method Prune(retainDays: int, maxRows: int, now: int, budgetFails: Option<nat>, windowFails: Option<nat>)
      returns (removed: Option<nat>, refused: seq<Refusal>)
      requires budgetFails.Some? ==> budgetFails.value <= |tables|
      requires windowFails.Some? ==> windowFails.value <= |tables|
      modifies this
      ensures var raisedFirst := maxRows > 0 && budgetFails.Some?;
              var raisedSecond := retainDays > 0 && windowFails.Some?;
              if raisedFirst then removed == None && tables == old(tables)
              else if raisedSecond then removed == None && tables == AfterBudget(old(tables), maxRows)
              else (tables, refused) == Pruned(old(tables), retainDays, maxRows, now)
                   && removed == Some(Total(old(tables)) - Total(tables))
    {
      var count := 0;
      refused := [];
      if maxRows > 0 {
        var ok;
        count, ok := TrimToBudget(maxRows, budgetFails);
        if !ok {
          return None, [];
        }
      }
      ghost var budgeted := tables;
      assert budgeted == AfterBudget(old(tables), maxRows) && count == Total(old(tables)) - Total(budgeted);
      if retainDays > 0 {
        var more, ok;
        more, refused, ok := SweepWindow(Cutoff(tables, retainDays, now), windowFails);
        if !ok {
          return None, [];
        }
        count := count + more;
      }
      removed := Some(count);
    }
  }

  lemma {:induction false} BudgetIsAPart(t: Table, max: nat)
    ensures |Budgeted(t, max)| <= |t|
  {
    if |t| > max {
      AboveIsAPart(t, t[|t| - 1 - max].id);
    }
  }

  lemma {:induction false} AboveIsAPart(t: Table, bound: nat)
    ensures |AboveId(t, bound)| <= |t|
  {
    if |t| == 0 {
    } else {
      AboveIsAPart(t[..|t| - 1], bound);
    }
  }

  /** A transaction that has replaced the first `n` tables by `done`. */
  ghost predicate Midway(begun: seq<Table>, tables: seq<Table>, n: nat, done: seq<Table>, removed: int) {
    && n <= |tables| == |begun|
    && tables[..n] == done && tables[n..] == begun[n..]
    && removed == Total(begun[..n]) - Total(done)
  }

  lemma {:induction false} NextTable(begun: seq<Table>, tables: seq<Table>, n: nat, t: Table, done: seq<Table>,
                                     removed: int)
    requires Midway(begun, tables, n, done, removed) && n < |tables|
    ensures tables[n] == begun[n] && begun[..n + 1][..n] == begun[..n]
    ensures Midway(begun, tables[n := t], n + 1, done + [t], removed + |tables[n]| - |t|)
  {
    assert begun[n..][0] == begun[n] && tables[n..][0] == tables[n];
    assert tables[n + 1..] == tables[n..][1..] && begun[n + 1..] == begun[n..][1..];
    assert tables[n := t][n + 1..] == tables[n + 1..];
    assert tables[n := t][..n + 1] == done + [t];
    assert begun[..n + 1][..n] == begun[..n];
    assert (done + [t])[..n] == done;
  }

  lemma {:induction false} SweepNext(begun: seq<Table>, n: nat, cutoff: int)
    requires n < |begun|
    ensures SweepAll(begun[..n + 1], cutoff) == SweepAll(begun[..n], cutoff) + [Swept(begun[n], cutoff)]
    ensures Refusals(begun[..n + 1], cutoff) == Refusals(begun[..n], cutoff)
            + (if Refuses(begun[n], cutoff) then [Refusal(n, Doomed(begun[n], cutoff), |begun[n]|)] else [])
  {
    assert begun[..n + 1][..n] == begun[..n];
  }

  lemma {:induction false} LastTable(begun: seq<Table>, tables: seq<Table>, n: nat, done: seq<Table>, removed: int)
    requires Midway(begun, tables, n, done, removed) && n == |tables|
    ensures begun[..n] == begun && tables == done && removed == Total(begun) - Total(tables)
  {
    assert begun[..n] == begun && tables[..n] == tables;
  }
}
