/**
 * The figures the ledger derives from its tables: money at risk and total
 * P/L (the sidebar), the per-bookie balance (the bankroll page), and the
 * dashboard's filtered selection and equity curve.
 */
module Aggregates {
  import opened Tables
  import opened Sums
  import opened Rules

  /** A row's stake while it is Pending, 0 once it is settled. */
  function PendingStake(b: Bet): real
  {
    if b.status == Pending then b.stake else 0.0
  }

  /** A row's P/L once it is settled, 0 while it is Pending. */
  function SettledPL(b: Bet): real
  {
    if b.status == Pending then 0.0 else b.pl
  }

  /**
   * Money at risk: the Stake column summed over the Pending rows (app.py:48).
   * It is the sum, over every row, of the stake still at risk in that row.
   */
  function Risk(bets: seq<Bet>): (r: real)
    ensures r == Sum(bets, PendingStake)
  {
    SumKeep(bets, StatusOf, {Pending}, Stake, PendingStake);
    Sum(Keep(bets, StatusOf, {Pending}), Stake)
  }

  /** Total P/L: the P/L column summed over every row (app.py:49). */
  function TotalPL(bets: seq<Bet>): real
  {
    Sum(bets, PL)
  }

  /** While no Pending row carries a P/L, total P/L is the P/L of the settled rows alone. */
  lemma TotalPLSettled(bets: seq<Bet>)
    requires forall i :: 0 <= i < |bets| && bets[i].status == Pending ==> bets[i].pl == 0.0
    ensures TotalPL(bets) == Sum(Keep(bets, StatusOf, {Won, Lost, Push, CashedOut}), PL)
  {
    SumKeep(bets, StatusOf, {Won, Lost, Push, CashedOut}, PL, SettledPL);
    SumAgree(bets, PL, SettledPL);
  }

  function BetsOf(bets: seq<Bet>, bookie: string): seq<Bet>
  {
    Keep(bets, BookieOf, {bookie})
  }

  function CashOf(cash: seq<Cash>, bookie: string): seq<Cash>
  {
    Keep(cash, CashBookie, {bookie})
  }

  /** What one wager row adds to its bookie's balance: its P/L, less its stake while Pending. */
  function BalanceEffect(b: Bet): real
  {
    b.pl - PendingStake(b)
  }

  /**
   * A bookie's balance (app.py:144-147): its cash Amounts, plus the P/L of
   * its wagers, less the stakes of its wagers still Pending.  Row by row,
   * it is the bookie's cash plus the BalanceEffect of each of its wagers.
   */
  function Balance(bets: seq<Bet>, cash: seq<Cash>, bookie: string): (r: real)
    ensures r == Sum(CashOf(cash, bookie), Amount) + Sum(BetsOf(bets, bookie), BalanceEffect)
  {
    SumDifference(BetsOf(bets, bookie), PL, PendingStake, BalanceEffect);
    Sum(CashOf(cash, bookie), Amount) + Sum(BetsOf(bets, bookie), PL) - Risk(BetsOf(bets, bookie))
  }

  /**
   * The money a bookie hands back when a pending wager settles: stake*odds
   * on a win, nothing on a loss, the stake on a push, the payout on a
   * cash-out.
   */
  function Returned(b: Bet, res: Status, payout: real): real
  {
    match res
    case Won => b.stake * b.odds
    case Lost => 0.0
    case Push => b.stake
    case CashedOut => payout
    case Pending => 0.0
  }

  lemma RiskSplit(a: seq<Bet>, x: Bet, b: seq<Bet>)
    ensures Risk(a + [x] + b) == Risk(a) + (if x.status == Pending then x.stake else 0.0) + Risk(b)
  {
    SumKeepSplit(a, x, b, StatusOf, {Pending}, Stake);
  }

  lemma TotalPLSplit(a: seq<Bet>, x: Bet, b: seq<Bet>)
    ensures TotalPL(a + [x] + b) == TotalPL(a) + x.pl + TotalPL(b)
  {
    SumAppend(a + [x], b, PL);
    SumAppend(a, [x], PL);
    assert [x][1..] == [];
  }

  /** Logging a wager adds its stake to the money at risk exactly when it is logged Pending. */
  lemma RiskAfterLog(bets: seq<Bet>, x: Bet)
    ensures Risk(bets + [x]) == Risk(bets) + (if x.status == Pending then x.stake else 0.0)
  {
    assert bets + [x] == bets + [x] + [];
    RiskSplit(bets, x, []);
  }

  /** Logging a wager adds exactly its P/L to the total. */
  lemma TotalPLAfterLog(bets: seq<Bet>, x: Bet)
    ensures TotalPL(bets + [x]) == TotalPL(bets) + x.pl
  {
    assert bets + [x] == bets + [x] + [];
    TotalPLSplit(bets, x, []);
  }

  /** Settling a pending wager takes exactly its stake off the money at risk. */
  lemma RiskAfterSettle(bets: seq<Bet>, i: nat, res: Status, payout: real)
    requires i < |bets| && bets[i].status == Pending && res != Pending
    ensures Risk(bets[i := SettleRow(bets[i], res, payout)]) == Risk(bets) - bets[i].stake
  {
    var v := SettleRow(bets[i], res, payout);
    assert bets == bets[..i] + [bets[i]] + bets[i + 1..];
    assert bets[i := v] == bets[..i] + [v] + bets[i + 1..];
    RiskSplit(bets[..i], bets[i], bets[i + 1..]);
    RiskSplit(bets[..i], v, bets[i + 1..]);
  }

  /** Settling a wager changes the total P/L by exactly the change in that row's P/L. */
  lemma TotalPLAfterSettle(bets: seq<Bet>, i: nat, res: Status, payout: real)
    requires i < |bets|
    ensures TotalPL(bets[i := SettleRow(bets[i], res, payout)])
         == TotalPL(bets) - bets[i].pl + SettleRow(bets[i], res, payout).pl
  {
    var v := SettleRow(bets[i], res, payout);
    assert bets == bets[..i] + [bets[i]] + bets[i + 1..];
    assert bets[i := v] == bets[..i] + [v] + bets[i + 1..];
    TotalPLSplit(bets[..i], bets[i], bets[i + 1..]);
    TotalPLSplit(bets[..i], v, bets[i + 1..]);
  }

  /** A masked stake sum is between 0 and the stake sum of the whole table when stakes are non-negative. */
  lemma {:induction false} KeepStakeBounds(bets: seq<Bet>, keep: set<Status>)
    requires forall i :: 0 <= i < |bets| ==> bets[i].stake >= 0.0
    ensures 0.0 <= Sum(Keep(bets, StatusOf, keep), Stake) <= Sum(bets, Stake)
  {
    if bets != [] {
      KeepStakeBounds(bets[1..], keep);
      var mid := if bets[0].status in keep then [bets[0]] else [];
      assert Keep(bets, StatusOf, keep) == mid + Keep(bets[1..], StatusOf, keep);
      SumAppend(mid, Keep(bets[1..], StatusOf, keep), Stake);
      if bets[0].status in keep { assert mid[1..] == []; }
    }
  }

  /** With non-negative stakes the money at risk is never negative and never exceeds the total staked. */
  lemma RiskBounds(bets: seq<Bet>)
    requires forall i :: 0 <= i < |bets| ==> bets[i].stake >= 0.0
    ensures 0.0 <= Risk(bets) <= Sum(bets, Stake)
  {
    KeepStakeBounds(bets, {Pending});
  }

  /**
   * One wager row `x` between `a` and `b` adds its BalanceEffect to its own
   * bookie's balance and nothing to any other bookie's.
   */
  lemma BalanceSplit(a: seq<Bet>, x: Bet, b: seq<Bet>, cash: seq<Cash>, bookie: string)
    ensures Balance(a + [x] + b, cash, bookie)
         == Sum(CashOf(cash, bookie), Amount)
            + TotalPL(BetsOf(a, bookie)) - Risk(BetsOf(a, bookie))
            + TotalPL(BetsOf(b, bookie)) - Risk(BetsOf(b, bookie))
            + (if x.bookie == bookie then BalanceEffect(x) else 0.0)
  {
    KeepSplit(a, x, b, BookieOf, {bookie});
    var mid := if x.bookie == bookie then [x] else [];
    assert BetsOf(a + [x] + b, bookie) == BetsOf(a, bookie) + mid + BetsOf(b, bookie);
    if x.bookie == bookie {
      RiskSplit(BetsOf(a, bookie), x, BetsOf(b, bookie));
      TotalPLSplit(BetsOf(a, bookie), x, BetsOf(b, bookie));
    } else {
      assert BetsOf(a, bookie) + mid + BetsOf(b, bookie) == BetsOf(a, bookie) + BetsOf(b, bookie);
      KeepAppend(BetsOf(a, bookie), BetsOf(b, bookie), StatusOf, {Pending});
      SumAppend(Keep(BetsOf(a, bookie), StatusOf, {Pending}), Keep(BetsOf(b, bookie), StatusOf, {Pending}), Stake);
      SumAppend(BetsOf(a, bookie), BetsOf(b, bookie), PL);
    }
  }

  /** Logging a wager moves its bookie's balance by its P/L less its stake if Pending, and no other balance. */
  lemma BalanceAfterLog(bets: seq<Bet>, cash: seq<Cash>, x: Bet, bookie: string)
    ensures Balance(bets + [x], cash, bookie)
         == Balance(bets, cash, bookie) + (if x.bookie == bookie then BalanceEffect(x) else 0.0)
  {
    assert bets + [x] == bets + [x] + [];
    BalanceSplit(bets, x, [], cash, bookie);
    assert bets == bets + [];
    KeepAppend(bets, [], BookieOf, {bookie});
    assert BetsOf([], bookie) == [];
  }

  /**
   * Settling a consistent pending wager raises its bookie's balance by
   * exactly the money the bookie returns (Returned), and leaves every other
   * bookie's balance as it was.
   */
  lemma BalanceAfterSettle(bets: seq<Bet>, cash: seq<Cash>, i: nat, res: Status, payout: real, bookie: string)
    requires i < |bets| && bets[i].status == Pending && Consistent(bets[i]) && res != Pending
    ensures Balance(bets[i := SettleRow(bets[i], res, payout)], cash, bookie)
         == Balance(bets, cash, bookie)
            + (if bets[i].bookie == bookie then Returned(bets[i], res, payout) else 0.0)
  {
    var v := SettleRow(bets[i], res, payout);
    assert bets == bets[..i] + [bets[i]] + bets[i + 1..];
    assert bets[i := v] == bets[..i] + [v] + bets[i + 1..];
    BalanceSplit(bets[..i], bets[i], bets[i + 1..], cash, bookie);
    BalanceSplit(bets[..i], v, bets[i + 1..], cash, bookie);
    assert v.bookie == bets[i].bookie;
    assert BalanceEffect(v) - BalanceEffect(bets[i]) == Returned(bets[i], res, payout);
  }

  /** Logging a cash row moves its bookie's balance by its signed Amount, and no other balance. */
  lemma BalanceAfterCash(bets: seq<Bet>, cash: seq<Cash>, c: Cash, bookie: string)
    ensures Balance(bets, cash + [c], bookie)
         == Balance(bets, cash, bookie) + (if c.bookie == bookie then c.amount else 0.0)
  {
    assert cash + [c] == cash + [c] + [];
    SumKeepSplit(cash, c, [], CashBookie, {bookie}, Amount);
    assert cash == cash + [];
    KeepAppend(cash, [], CashBookie, {bookie});
  }

  /** The balances of the bookies in `names`, added up. */
  function TotalBalance(bets: seq<Bet>, cash: seq<Cash>, names: seq<string>): real
  {
    if names == [] then 0.0 else Balance(bets, cash, names[0]) + TotalBalance(bets, cash, names[1..])
  }

  lemma {:induction false} TotalBalanceByKey(bets: seq<Bet>, cash: seq<Cash>, names: seq<string>)
    ensures TotalBalance(bets, cash, names)
         == SumByKey(names, cash, CashBookie, Amount) + SumByKey(names, bets, BookieOf, PL)
            - SumByKey(names, Keep(bets, StatusOf, {Pending}), BookieOf, Stake)
  {
    if names != [] {
      KeepCommute(bets, BookieOf, {names[0]}, StatusOf, {Pending});
      TotalBalanceByKey(bets, cash, names[1..]);
    }
  }

  /**
   * When every wager and every cash row belongs to one of a list of distinct
   * bookies, the bookies' balances add up to the whole bankroll: all cash,
   * plus the total P/L, less the money at risk.
   */
  lemma BalancesAddUp(bets: seq<Bet>, cash: seq<Cash>, names: seq<string>)
    requires forall i, j :: 0 <= i < j < |names| ==> names[i] != names[j]
    requires forall b :: b in bets ==> b.bookie in names
    requires forall c :: c in cash ==> c.bookie in names
    ensures TotalBalance(bets, cash, names) == Sum(cash, Amount) + TotalPL(bets) - Risk(bets)
  {
    TotalBalanceByKey(bets, cash, names);
    Partition(names, cash, CashBookie, Amount);
    Partition(names, bets, BookieOf, PL);
    Partition(names, Keep(bets, StatusOf, {Pending}), BookieOf, Stake);
  }

  /**
   * One dashboard multiselect (app.py:66-68): an empty selection keeps every
   * row, otherwise the rows whose column value is among the selected ones,
   * each as many times as the table holds it and in the table's order.
   */
  function Narrow(bets: seq<Bet>, column: Bet -> string, selected: seq<string>): (r: seq<Bet>)
    ensures |r| <= |bets|
    ensures forall b :: multiset(r)[b] == if selected == [] || column(b) in selected then multiset(bets)[b] else 0
    ensures Subsequence(r, bets)
    ensures selected == [] ==> r == bets
  {
    if selected == [] then
      SubsequenceRefl(bets);
      bets
    else
      KeepCount(bets, column, set v | v in selected);
      KeepOrder(bets, column, set v | v in selected);
      Keep(bets, column, set v | v in selected)
  }

  /** The dashboard's selection test: each non-empty multiselect contains the row's value. */
  predicate Selected(b: Bet, leagues: seq<string>, bookies: seq<string>, sports: seq<string>)
  {
    (leagues == [] || b.league in leagues) &&
    (bookies == [] || b.bookie in bookies) &&
    (sports == [] || b.sport in sports)
  }

  /**
   * The dashboard's rows: League, then Bookie, then Sport narrowed in turn.
   * Every selected row is kept exactly as many times as in the sheet, no
   * other row is, and the sheet's order is kept; with nothing selected the
   * table is unfiltered.
   */
  function DashboardRows(bets: seq<Bet>, leagues: seq<string>, bookies: seq<string>, sports: seq<string>): (r: seq<Bet>)
    ensures |r| <= |bets|
    ensures forall b :: b in r <==> b in bets && Selected(b, leagues, bookies, sports)
    ensures forall b :: multiset(r)[b] == if Selected(b, leagues, bookies, sports) then multiset(bets)[b] else 0
    ensures Subsequence(r, bets)
    ensures leagues == [] && bookies == [] && sports == [] ==> r == bets
  {
    var byLeague := Narrow(bets, LeagueOf, leagues);
    var byBookie := Narrow(byLeague, BookieOf, bookies);
    var bySport := Narrow(byBookie, SportOf, sports);
    SubsequenceTrans(bySport, byBookie, byLeague);
    SubsequenceTrans(bySport, byLeague, bets);
    bySport
  }

  predicate SortedByDate(s: seq<Bet>)
  {
    forall i, j :: 0 <= i < j < |s| ==> s[i].date <= s[j].date
  }

  /** Inserts `x` into a date-sorted table before the first row dated no earlier. */
  function Insert(x: Bet, s: seq<Bet>): (r: seq<Bet>)
    requires SortedByDate(s)
    ensures SortedByDate(r)
    ensures multiset(r) == multiset(s) + multiset{x}
    ensures |r| == |s| + 1 && (r[0] == x || (s != [] && r[0] == s[0]))
  {
    if s == [] || x.date <= s[0].date then [x] + s
    else
      var rest := Insert(x, s[1..]);
      assert s == [s[0]] + s[1..];
      [s[0]] + rest
  }

  /**
   * The table ordered by Date (`sort_values("Date")`, app.py:71): a
   * date-sorted permutation of its rows.
   */
  function SortByDate(s: seq<Bet>): (r: seq<Bet>)
    ensures SortedByDate(r)
    ensures multiset(r) == multiset(s)
  {
    if s == [] then []
    else
      assert s == [s[0]] + s[1..];
      Insert(s[0], SortByDate(s[1..]))
  }

  /** Running P/L (`cumsum`), started from `start`: entry i is start plus the P/L of rows 0..i. */
  function Running(s: seq<Bet>, start: real): (r: seq<real>)
    ensures |r| == |s|
    ensures forall i :: 0 <= i < |s| ==> r[i] == start + Sum(s[..i + 1], PL)
  {
    if s == [] then []
    else
      var next := start + s[0].pl;
      var rest := Running(s[1..], next);
      assert forall i :: 0 < i < |s| ==> s[..i + 1][1..] == s[1..][..i];
      [next] + rest
  }

  /**
   * The equity curve (app.py:71-72): the running P/L of the rows in date
   * order.  It has one point per row and ends at the rows' total P/L.
   */
  function EquityCurve(rows: seq<Bet>): (r: seq<real>)
    ensures |r| == |rows|
    ensures forall i :: 0 <= i < |r| ==> r[i] == Sum(SortByDate(rows)[..i + 1], PL)
    ensures rows != [] ==> r[|r| - 1] == TotalPL(rows)
  {
    var sorted := SortByDate(rows);
    assert Sum(sorted, PL) == TotalPL(rows) by {
      SumPermutation(sorted, rows, PL);
    }
    assert |sorted| == |multiset(rows)| == |rows|;
    assert sorted[..|sorted|] == sorted;
    Running(sorted, 0.0)
  }

  /**
   * `sort_values` does not fix the order of rows with the same Date; the
   * curve's final point is the same for every date-sorted arrangement.
   */
  lemma EquityCurveEndsAtTotal(rows: seq<Bet>, arranged: seq<Bet>)
    requires SortedByDate(arranged) && multiset(arranged) == multiset(rows) && rows != []
    ensures |Running(arranged, 0.0)| == |rows|
    ensures Running(arranged, 0.0)[|rows| - 1] == EquityCurve(rows)[|rows| - 1]
  {
    assert |arranged| == |multiset(rows)| == |rows|;
    assert arranged[..|arranged|] == arranged;
    SumPermutation(arranged, rows, PL);
  }
}
