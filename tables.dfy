/**
 * The rows of the ledger's two tables.  The "Bets" sheet is taken to have
 * the columns id, Date, Sport, League, Bookie, Type, Event, Odds, Stake,
 * Status, P/L and Cashout_Amt, in that order, which is the order in which
 * app.py:103 fills a new row; the "Cash" sheet Date, Bookie, Type and Amount,
 * the order of app.py:138.  Dates are ordinal day numbers: only their order is
 * used.  Money is an exact `real`.
 */
module Tables {

  datatype Option<T> = None | Some(value: T)

  /** The five values of the Status column. */
  datatype Status = Pending | Won | Lost | Push | CashedOut

  /** One row of the "Bets" sheet. */
  datatype Bet = Bet(
    id: int,
    date: int,
    sport: string,
    league: string,
    bookie: string,
    kind: string,
    event: string,
    odds: real,
    stake: real,
    status: Status,
    pl: real,
    cashoutAmt: real)

  /** The three values of the Type column of the "Cash" sheet. */
  datatype CashKind = Deposit | Withdrawal | Bonus

  /** One row of the "Cash" sheet; Amount is stored with its sign. */
  datatype Cash = Cash(date: int, bookie: string, kind: CashKind, amount: real)

  // Columns and keys, as named functions so that masks and sums over the
  // same column are the same term wherever they appear.

  function Stake(b: Bet): real { b.stake }
  function PL(b: Bet): real { b.pl }
  function StatusOf(b: Bet): Status { b.status }
  function BookieOf(b: Bet): string { b.bookie }
  function LeagueOf(b: Bet): string { b.league }
  function SportOf(b: Bet): string { b.sport }
  function Amount(c: Cash): real { c.amount }
  function CashBookie(c: Cash): string { c.bookie }

  /** Two rows describe the same wager: every column but Status, P/L and Cashout_Amt agrees. */
  predicate SameWager(a: Bet, b: Bet)
  {
    a.id == b.id && a.date == b.date && a.sport == b.sport && a.league == b.league &&
    a.bookie == b.bookie && a.kind == b.kind && a.event == b.event &&
    a.odds == b.odds && a.stake == b.stake
  }
}
