/**
 * The two sheets as the application changes them: a wager or a cash row is
 * appended, and a pending wager is settled in place.  Each operation stands
 * for one form submission, which writes the changed sheet back whole and
 * reloads it; the class holds the sheets' contents between submissions.
 */
module Tracker {
  import opened Tables
  import opened Sums
  import opened Rules
  import opened Aggregates

  /** The column entries `Some(v)` for the values `v` of `names`, in order. */
  function Present(names: seq<string>): (r: seq<Option<string>>)
    ensures |r| == |names| && forall i :: 0 <= i < |names| ==> r[i] == Some(names[i])
  {
    if names == [] then [] else [Some(names[0])] + Present(names[1..])
  }

  /**
   * The present entries of a Meta column (`dropna().tolist()`), in column
   * order and with repeats (DropNaCount, DropNaOrder, DropNaFirst).
   */
  function DropNa(column: seq<Option<string>>): (r: seq<string>)
    ensures |r| <= |column|
    ensures forall v :: v in r <==> Some(v) in column
  {
    if column == [] then []
    else (if column[0].Some? then [column[0].value] else []) + DropNa(column[1..])
  }

  /** Each value is kept exactly as many times as the column holds it. */
  lemma {:induction false} DropNaCount(column: seq<Option<string>>)
    ensures forall v :: multiset(DropNa(column))[v] == multiset(column)[Some(v)]
  {
    if column != [] {
      DropNaCount(column[1..]);
      assert column == [column[0]] + column[1..];
      assert multiset(column) == multiset{column[0]} + multiset(column[1..]);
      var mid := if column[0].Some? then [column[0].value] else [];
      assert DropNa(column) == mid + DropNa(column[1..]);
      assert multiset(DropNa(column)) == multiset(mid) + multiset(DropNa(column[1..]));
    }
  }

  /** The kept values appear in the column's order. */
  lemma {:induction false} DropNaOrder(column: seq<Option<string>>)
    ensures Subsequence(Present(DropNa(column)), column)
  {
    if column != [] {
      DropNaOrder(column[1..]);
      var rest := DropNa(column[1..]);
      if column[0].Some? {
        var r := [column[0].value] + rest;
        assert DropNa(column) == r;
        assert r[1..] == rest;
        assert Present(r)[1..] == Present(rest);
      } else {
        assert DropNa(column) == rest;
      }
    }
  }

  /**
   * The list is empty exactly when no entry is present, and otherwise starts
   * with the value of the first present entry.
   */
  lemma {:induction false} DropNaFirst(column: seq<Option<string>>)
    ensures DropNa(column) == [] <==> forall i :: 0 <= i < |column| ==> column[i] == None
    ensures DropNa(column) != [] ==>
      exists i :: 0 <= i < |column| && column[i] == Some(DropNa(column)[0]) &&
                  forall j :: 0 <= j < i ==> column[j] == None
  {
    if column != [] {
      DropNaFirst(column[1..]);
      if column[0].None? {
        assert DropNa(column) == DropNa(column[1..]);
        assert forall i :: 0 < i < |column| ==> column[i] == column[1..][i - 1];
        if DropNa(column) != [] {
          var i :| 0 <= i < |column[1..]| && column[1..][i] == Some(DropNa(column)[0]) &&
                   forall j :: 0 <= j < i ==> column[1..][j] == None;
          assert column[i + 1] == Some(DropNa(column)[0]);
          assert forall j :: 0 < j < i + 1 ==> column[j] == column[1..][j - 1];
        }
      } else {
        assert DropNa(column)[0] == column[0].value;
      }
    }
  }

  /** One line of the bankroll page's summary table. */
  datatype BookieRow = BookieRow(bookie: string, balance: real)

  /**
   * The Bookie a cash row is logged with, as the cash form is written
   * (app.py:138): the Bookie selectbox is created only once the submit
   * button has fired, so it returns its default, the first bookie of the
   * Meta list, or nothing when the list is empty; the user's choice never
   * reaches the row.
   */
  function SubmittedCashBookie(bookies: seq<Option<string>>): (r: Option<string>)
    ensures r == None <==> forall i :: 0 <= i < |bookies| ==> bookies[i] == None
    ensures r != None ==> Some(r.value) in bookies
  {
    var names := DropNa(bookies);
    if names == [] then None else Some(names[0])
  }

  /** Whichever listed bookie a user means other than the first, the row is logged under another one. */
  lemma CashFormIgnoresChoice(bookies: seq<Option<string>>, chosen: string)
    requires chosen in DropNa(bookies) && chosen != DropNa(bookies)[0]
    ensures SubmittedCashBookie(bookies) != Some(chosen)
  {
  }

  /** With Meta bookies Bet365 and Pinnacle, a deposit meant for Pinnacle is logged under Bet365. */
  lemma CashFormCounterexample()
    ensures SubmittedCashBookie([Some("Bet365"), Some("Pinnacle")]) == Some("Bet365")
  {
    assert DropNa([Some("Bet365"), Some("Pinnacle")]) == ["Bet365", "Pinnacle"] by {
      var col := [Some("Bet365"), Some("Pinnacle")];
      assert col[1..] == [Some("Pinnacle")];
      assert col[1..][1..] == [];
    }
  }

  /**
   * The invariant of the Bets sheet: ids are positive and strictly increase
   * down the sheet, and every row is one the application itself can have
   * written (Rules.Recorded).
   */
  ghost predicate WellFormed(bets: seq<Bet>)
  {
    (forall i, j :: 0 <= i < j < |bets| ==> bets[i].id < bets[j].id) &&
    (forall i :: 0 <= i < |bets| ==> bets[i].id >= 1 && Recorded(bets[i]))
  }

  /** Logging wager `row` moves only its own bookie's balance, by its BalanceEffect. */
  lemma LogBalances(bets: seq<Bet>, cash: seq<Cash>, row: Bet)
    ensures forall bk :: (Balance(bets + [row], cash, bk) ==
      Balance(bets, cash, bk) + (if row.bookie == bk then BalanceEffect(row) else 0.0))
  {
    forall bk {
      BalanceAfterLog(bets, cash, row, bk);
    }
  }

  /**
   * Settling a consistent pending row moves only its own bookie's balance,
   * by exactly the money the bookie returns.
   */
  lemma SettleBalances(bets: seq<Bet>, cash: seq<Cash>, idx: nat, res: Status, payout: real)
    requires idx < |bets| && bets[idx].status == Pending && Consistent(bets[idx]) && res != Pending
    ensures forall bk :: (Balance(bets[idx := SettleRow(bets[idx], res, payout)], cash, bk) ==
      Balance(bets, cash, bk) + (if bets[idx].bookie == bk then Returned(bets[idx], res, payout) else 0.0))
  {
    forall bk {
      BalanceAfterSettle(bets, cash, idx, res, payout, bk);
    }
  }

  /** Appending a logged wager keeps the sheet well formed. */
  lemma LogKeepsWellFormed(bets: seq<Bet>, row: Bet)
    requires WellFormed(bets) && row.id == NextId(bets) && Recorded(row)
    ensures WellFormed(bets + [row])
  {
  }

  /** Settling a pending row keeps the sheet well formed, and the settled row is consistent. */
  lemma SettleKeepsWellFormed(bets: seq<Bet>, idx: nat, res: Status, payout: real)
    requires WellFormed(bets) && idx < |bets| && bets[idx].status == Pending && res != Pending
    ensures WellFormed(bets[idx := SettleRow(bets[idx], res, payout)])
    ensures Consistent(SettleRow(bets[idx], res, payout))
  {
    SettleRecorded(bets[idx], res, payout);
  }

  /** The "Bets" and "Cash" sheets. */
  class Ledger {
    var bets: seq<Bet>
    var cash: seq<Cash>

    ghost predicate Valid()
      reads this
    {
      WellFormed(bets)
    }

    /** The sheets as loaded. */
    constructor (bets: seq<Bet>, cash: seq<Cash>)
      ensures this.bets == bets && this.cash == cash
    {
      this.bets := bets;
      this.cash := cash;
    }

    /**
     * Logs a wager (app.py:101-104): exactly one row is appended, with the
     * next id, the entry P/L and a zero Cashout_Amt; earlier rows are
     * unchanged, and only the wager's own bookie's balance moves.
     */
    method LogBet(date: int, sport: string, league: string, bookie: string, kind: string,
                  event: string, odds: real, stake: real, status: Status) returns (id: int)
      modifies this
      ensures id == NextId(old(bets))
      ensures forall i :: 0 <= i < |old(bets)| ==> old(bets)[i].id < id
      ensures bets == old(bets) + [NewBet(id, date, sport, league, bookie, kind, event, odds, stake, status)]
      ensures cash == old(cash)
      ensures Risk(bets) == Risk(old(bets)) + (if status == Pending then stake else 0.0)
      ensures TotalPL(bets) == TotalPL(old(bets)) + EntryPL(stake, odds, status)
      ensures forall bk :: (Balance(bets, cash, bk) == Balance(old(bets), cash, bk) +
        (if bookie == bk then EntryPL(stake, odds, status) - (if status == Pending then stake else 0.0) else 0.0))
      ensures old(Valid()) ==> Valid()
    {
      id := NextId(bets);
      var row := NewBet(id, date, sport, league, bookie, kind, event, odds, stake, status);
      RiskAfterLog(bets, row);
      TotalPLAfterLog(bets, row);
      LogBalances(bets, cash, row);
      if WellFormed(bets) {
        LogKeepsWellFormed(bets, row);
      }
      bets := bets + [row];
    }

    /**
     * Settles the pending wager in row `idx` with result `res` (app.py:118-126):
     * Status is written, then P/L for Won, Lost and Cashed Out, and
     * Cashout_Amt for Cashed Out; nothing else in the sheets changes.  In a
     * valid ledger the settled row is consistent, and only its bookie's
     * balance moves, by exactly the money the bookie returns.
     */
    method Settle(idx: nat, res: Status, payout: real)
      requires idx < |bets| && bets[idx].status == Pending && res != Pending
      modifies this
      ensures bets == old(bets)[idx := SettleRow(old(bets)[idx], res, payout)]
      ensures cash == old(cash)
      ensures Risk(bets) == Risk(old(bets)) - old(bets)[idx].stake
      ensures TotalPL(bets) == TotalPL(old(bets)) - old(bets)[idx].pl + bets[idx].pl
      ensures old(Valid()) ==> Valid() && Consistent(bets[idx])
      ensures old(Valid()) ==> forall bk :: (Balance(bets, cash, bk) == Balance(old(bets), cash, bk) +
        (if old(bets)[idx].bookie == bk then Returned(old(bets)[idx], res, payout) else 0.0))
    {
      var row := bets[idx];
      ghost var settled := bets[idx := SettleRow(row, res, payout)];
      bets := bets[idx := bets[idx].(status := res)];
      if res == Won {
        bets := bets[idx := bets[idx].(pl := row.stake * row.odds - row.stake)];
        assert SettleRow(row, res, payout) == row.(status := res, pl := row.stake * row.odds - row.stake);
        assert bets == settled;
      } else if res == Lost {
        bets := bets[idx := bets[idx].(pl := -row.stake)];
        assert bets == settled;
      } else if res == CashedOut {
        bets := bets[idx := bets[idx].(pl := payout - row.stake)];
        bets := bets[idx := bets[idx].(cashoutAmt := payout)];
        assert bets == settled;
      } else {
        assert bets == settled;
      }
      ghost var before := old(bets);
      RiskAfterSettle(before, idx, res, payout);
      TotalPLAfterSettle(before, idx, res, payout);
      if WellFormed(before) {
        SettleKeepsWellFormed(before, idx, res, payout);
        assert Recorded(row);
        SettleBalances(before, cash, idx, res, payout);
      }
    }

    /**
     * Logs a cash transaction for `bookie` (app.py:137-139): exactly one row
     * is appended, with a withdrawal's amount negated, and only that
     * bookie's balance moves, by the signed amount.
     */
    method LogCash(date: int, bookie: string, kind: CashKind, amount: real)
      modifies this
      ensures cash == old(cash) + [Cash(date, bookie, kind, SignedAmount(kind, amount))]
      ensures bets == old(bets)
      ensures forall bk :: (Balance(bets, cash, bk) ==
        Balance(bets, old(cash), bk) + (if bookie == bk then SignedAmount(kind, amount) else 0.0))
      ensures old(Valid()) ==> Valid()
    {
      var final := SignedAmount(kind, amount);
      var row := Cash(date, bookie, kind, final);
      forall bk {
        BalanceAfterCash(bets, cash, row, bk);
      }
      cash := cash + [row];
    }

    /**
     * The bankroll summary (app.py:142-147): one line per present entry of
     * the Meta Bookies column, in order, holding that bookie's balance.
     */
    method BookieSummary(bookieColumn: seq<Option<string>>) returns (summary: seq<BookieRow>)
      ensures |summary| == |DropNa(bookieColumn)|
      ensures forall i :: 0 <= i < |summary| ==>
        summary[i] == BookieRow(DropNa(bookieColumn)[i], Balance(bets, cash, DropNa(bookieColumn)[i]))
    {
      var names := DropNa(bookieColumn);
      summary := [];
      for k := 0 to |names|
        invariant |summary| == k
        invariant forall i :: 0 <= i < k ==> summary[i] == BookieRow(names[i], Balance(bets, cash, names[i]))
      {
        var b := names[k];
        var cFlow := Sum(CashOf(cash, b), Amount);
        var pFlow := Sum(BetsOf(bets, b), PL);
        var riskFlow := Risk(BetsOf(bets, b));
        summary := summary + [BookieRow(b, cFlow + pFlow - riskFlow)];
      }
    }
  }
}
