/**
 * The documents of the `users` collection that the round engine and the
 * account code read and write, and the collection itself as an in-memory map
 * from `_id` to document.
 */
module Store {
  import opened Wrappers

  /** A document `_id`, as the string the clients send. */
  type Id = string

  /** One column of a game-history record: a multiplier, or the placeholder
      'x' that marks the column the round's outcome did not use. */
  datatype Mark = X | At(multiplier: real)

  /** The `historyData` object written after every round. */
  datatype HistoryRecord = HistoryRecord(crash: Mark, bet: real, stop: Mark, profit: real)
  {
    /** How the profile page counts a win: the crash column holds 'x'. */
    predicate Won() {
      crash == X
    }

    /** How the profile page counts a loss: the stop column holds 'x'. */
    predicate Lost() {
      stop == X
    }
  }

  /** Exactly one of the two columns holds 'x'. */
  predicate WellFormed(r: HistoryRecord) {
    r.Won() != r.Lost()
  }

  /** The multiplier a round was resolved at: the cash-out point of a win,
      the crash point of a loss. */
  function Resolved(r: HistoryRecord): real
    requires WellFormed(r)
  {
    if r.Won() then r.stop.multiplier else r.crash.multiplier
  }

  /** A win pays `bet * (multiplier - 1)`, a loss costs the bet. */
  predicate PaysOut(r: HistoryRecord)
    requires WellFormed(r)
  {
    if r.Won() then r.profit == r.bet * (Resolved(r) - 1.0) else r.profit == -r.bet
  }

  predicate Sound(r: HistoryRecord) {
    WellFormed(r) && PaysOut(r)
  }

  predicate AllSound(h: seq<HistoryRecord>) {
    forall k :: 0 <= k < |h| ==> Sound(h[k])
  }

  /** An entry of `btc.deposits`. */
  datatype Deposit = Deposit(id: string, amount: int, date: int)

  /** An entry of `btc.affilation`: a bonus earned from a guest's deposit. */
  datatype Affiliation = Affiliation(date: int, amount: real, name: string, email: string)

  /** An entry of `btc.withdraws`. */
  datatype Withdrawal = Withdrawal(date: int, amount: real, address: string)

  /**
   * The fields of a user document that the modelled code touches:
   * `balance.real`, `balance.virtual`, `gamesHistory.real`,
   * `gamesHistory.virtual`, `btc.deposited`, `btc.deposits`,
   * `btc.affilation`, `btc.withdraws`, the session key and the inviter.
   */
  datatype User = User(
    name: string,
    email: string,
    session: Option<string>,
    inviter: Option<Id>,
    realBalance: real,
    virtualBalance: real,
    realHistory: seq<HistoryRecord>,
    virtualHistory: seq<HistoryRecord>,
    deposited: int,
    deposits: seq<Deposit>,
    affiliation: seq<Affiliation>,
    withdraws: seq<Withdrawal>)

  /** Every game record of every user pays out as its columns say. */
  predicate Consistent(users: map<Id, User>) {
    forall id :: id in users ==> AllSound(users[id].realHistory) && AllSound(users[id].virtualHistory)
  }

  /** The `users` collection. */
  class Table {
    var users: map<Id, User>

    constructor ()
      ensures users == map[]
    {
      users := map[];
    }
  }
}
