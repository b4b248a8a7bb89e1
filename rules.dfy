/**
 * The per-row rules of the ledger: the P/L a wager is logged with, the id it
 * is given, how settling a pending wager rewrites its row, and the sign a
 * cash transaction is stored with.
 */
module Rules {
  import opened Tables

  /**
   * The reference relation between a row's Status and its P/L and
   * Cashout_Amt: a pending wager has nothing booked, a win books the net
   * profit stake*odds - stake, a loss the whole stake, a push nothing, and a
   * cash-out the payout less the stake.
   */
  predicate Consistent(b: Bet)
  {
    match b.status
    case Pending => b.pl == 0.0 && b.cashoutAmt == 0.0
    case Won => b.pl == b.stake * b.odds - b.stake && b.cashoutAmt == 0.0
    case Lost => b.pl == -b.stake && b.cashoutAmt == 0.0
    case Push => b.pl == 0.0 && b.cashoutAmt == 0.0
    case CashedOut => b.pl == b.cashoutAmt - b.stake
  }

  /**
   * A row the application itself can have written: a consistent row, or a
   * wager logged directly as Cashed Out, which the entry form books with
   * P/L 0 and Cashout_Amt 0 because it has no payout field.
   */
  predicate Recorded(b: Bet)
  {
    Consistent(b) || (b.status == CashedOut && b.pl == 0.0 && b.cashoutAmt == 0.0)
  }

  /** The ranges the entry form accepts for Odds and Stake (app.py:96-97). */
  predicate FormOdds(odds: real) { 1.01 <= odds <= 100.0 }
  predicate FormStake(stake: real) { 0.0 <= stake <= 50000.0 }

  /**
   * P/L booked when a wager is logged: a win books the net profit
   * stake*odds - stake at the entered odds, a loss the whole stake, and no
   * other status books anything; a win never books a loss and only a loss
   * books one, for a non-negative stake at odds of at least 1.
   */
  function EntryPL(stake: real, odds: real, status: Status): (r: real)
    ensures status == Won ==> r == stake * odds - stake
    ensures status == Lost ==> r == -stake
    ensures status != Won && status != Lost ==> r == 0.0
    ensures stake >= 0.0 && odds >= 1.0 ==> (r < 0.0 ==> status == Lost) && (status == Won ==> r >= 0.0)
  {
    if status == Won then
      assert stake * odds - stake == stake * (odds - 1.0);
      stake * odds - stake
    else if status == Lost then -stake
    else 0.0
  }

  /**
   * The row appended when a wager is logged: every column is the value
   * entered, its P/L is EntryPL of the entered stake, odds and status, and
   * Cashout_Amt is always 0.  It is a row the application can write, and it
   * is consistent exactly when it is not a cash-out booked with a non-zero
   * stake.
   */
  function NewBet(id: int, date: int, sport: string, league: string, bookie: string,
                  kind: string, event: string, odds: real, stake: real, status: Status): (r: Bet)
    ensures r.id == id && r.bookie == bookie && r.stake == stake && r.status == status && r.cashoutAmt == 0.0
    ensures r.date == date && r.sport == sport && r.league == league && r.kind == kind && r.event == event
    ensures r.odds == odds && r.pl == EntryPL(stake, odds, status)
    ensures Recorded(r)
    ensures Consistent(r) <==> status != CashedOut || stake == 0.0
  {
    Bet(id, date, sport, league, bookie, kind, event, odds, stake, status,
        EntryPL(stake, odds, status), 0.0)
  }

  /** The largest id in a non-empty table. */
  function MaxId(bets: seq<Bet>): (m: int)
    requires bets != []
    ensures exists i :: 0 <= i < |bets| && bets[i].id == m
    ensures forall i :: 0 <= i < |bets| ==> bets[i].id <= m
  {
    if |bets| == 1 then bets[0].id
    else
      var rest := MaxId(bets[1..]);
      if bets[0].id >= rest then bets[0].id else rest
  }

  /**
   * The id of a newly logged wager: one past the largest id, or 1 in an
   * empty table.  It is larger than every id already in the table.
   */
  function NextId(bets: seq<Bet>): (r: int)
    ensures forall i :: 0 <= i < |bets| ==> bets[i].id < r
    ensures bets == [] ==> r == 1
    ensures bets != [] ==> exists i :: 0 <= i < |bets| && r == bets[i].id + 1
  {
    if bets == [] then 1 else MaxId(bets) + 1
  }

  /**
   * The row after settling wager `b` with result `res` (and `payout`, read
   * only for a cash-out): Status is overwritten, then P/L for Won, Lost and
   * Cashed Out whatever the row held before, and Cashout_Amt for Cashed Out
   * only; a push keeps the P/L
   * the row had.  A consistent pending row settles to a consistent row.
   */
  function SettleRow(b: Bet, res: Status, payout: real): (r: Bet)
    ensures SameWager(r, b) && r.status == res
    ensures res == CashedOut ==> r.cashoutAmt == payout
    ensures res != CashedOut ==> r.cashoutAmt == b.cashoutAmt
    ensures res == Won ==> r.pl == b.stake * b.odds - b.stake
    ensures res == Lost ==> r.pl == -b.stake
    ensures res == CashedOut ==> r.pl == payout - b.stake
    ensures res == Push ==> r.pl == b.pl
    ensures b.status == Pending && Consistent(b) && res != Pending ==> Consistent(r)
  {
    var s := b.(status := res);
    if res == Won then s.(pl := b.stake * b.odds - b.stake)
    else if res == Lost then s.(pl := -b.stake)
    else if res == CashedOut then s.(pl := payout - b.stake, cashoutAmt := payout)
    else s
  }

  /**
   * The Amount stored for a cash transaction: a withdrawal is stored
   * negated, a deposit or a bonus as entered, so that amounts sum directly.
   */
  function SignedAmount(kind: CashKind, amount: real): (r: real)
    ensures r == amount || r == -amount
    ensures amount > 0.0 ==> (r < 0.0 <==> kind == Withdrawal)
  {
    if kind == Withdrawal then -amount else amount
  }

  /**
   * Logging a wager directly with a result books the same row as logging it
   * Pending and then settling it with that result, for Won, Lost and Push;
   * for Cashed Out the two agree only for a zero stake and a zero payout.
   */
  lemma EntryAgreesWithSettlement(id: int, date: int, sport: string, league: string, bookie: string,
                                  kind: string, event: string, odds: real, stake: real,
                                  res: Status, payout: real)
    ensures res != CashedOut ==>
      NewBet(id, date, sport, league, bookie, kind, event, odds, stake, res)
      == SettleRow(NewBet(id, date, sport, league, bookie, kind, event, odds, stake, Pending), res, payout)
    ensures res == CashedOut ==>
      (NewBet(id, date, sport, league, bookie, kind, event, odds, stake, res)
       == SettleRow(NewBet(id, date, sport, league, bookie, kind, event, odds, stake, Pending), res, payout)
       <==> stake == 0.0 && payout == 0.0)
  {
  }

  /**
   * Within the entry form's ranges a win books a non-negative profit no
   * larger than stake*99, a loss books at most the stake, and every entry P/L
   * lies between -stake and stake*odds - stake.
   */
  lemma EntryPLBounds(stake: real, odds: real, status: Status)
    requires FormOdds(odds) && FormStake(stake)
    ensures -stake <= EntryPL(stake, odds, status) <= stake * odds - stake
    ensures status == Won ==> 0.0 <= EntryPL(stake, odds, status) <= stake * 99.0
    ensures status == Lost ==> -50000.0 <= EntryPL(stake, odds, status) <= 0.0
  {
    var gain := odds - 1.0;
    assert stake * odds - stake == stake * gain;
    ScaledBounds(stake, gain, 99.0);
    if status == Won {
      assert EntryPL(stake, odds, status) == stake * gain;
      assert stake * gain <= stake * 99.0;
    } else if status == Lost {
      assert EntryPL(stake, odds, status) == -stake;
    } else {
      assert EntryPL(stake, odds, status) == 0.0;
    }
  }

  /** A non-negative stake times a factor in [0, c] lies in [0, stake*c]. */
  lemma ScaledBounds(stake: real, y: real, c: real)
    requires 0.0 <= stake && 0.0 <= y <= c
    ensures 0.0 <= stake * y <= stake * c
  {
    assert stake * c - stake * y == stake * (c - y);
  }

  /** Settling keeps the application's rows well formed. */
  lemma SettleRecorded(b: Bet, res: Status, payout: real)
    requires Recorded(b) && b.status == Pending && res != Pending
    ensures Consistent(SettleRow(b, res, payout))
  {
  }
}
