/**
 * The crash round of game/index.js: sampling the crash point, deciding the
 * outcome against the player's auto-stop target, the timer that delivers it,
 * the manual cash-out and the ledger update that follows either.
 */
module Game {
  import opened Wrappers
  import opened Random
  import opened Store

  /** Fraction of the excess over 1 that a real-money crash point keeps. */
  const HouseEdgeFactor: real := 0.95

  /** `ACCELERATION` and `MAX_WIN`, imported by the source from its globals. */
  datatype Config = Config(acceleration: real, maxWin: real)

  predicate ValidConfig(c: Config) {
    c.acceleration > 0.0 && c.maxWin >= 1.0
  }

  /** The fields of the start request the round uses. */
  datatype GameData = GameData(isReal: bool, bet: real, autoStop: real, userId: Option<Id>)

  // ---------------------------------------------------------------- sampling

  /** `Math.random() || nonNullRandom()`: the first draw of the stream that
      is not 0. `None` stands for a stream that never yields one, on which the
      source recurses without end. */
  function NonNullRandom(draws: seq<real>): (r: Option<real>)
    ensures r.Some? <==> exists k :: 0 <= k < |draws| && draws[k] != 0.0
    ensures r.Some? ==> r.value != 0.0 && r.value in draws
  {
    if |draws| == 0 then None
    else if draws[0] != 0.0 then Some(draws[0])
    else
      var r := NonNullRandom(draws[1..]);
      assert forall k :: 1 <= k < |draws| ==> draws[k] == draws[1..][k - 1];
      r
  }

  lemma {:induction false} NonNullRandomTakesFirst(draws: seq<real>, k: nat)
    requires k < |draws| && draws[k] != 0.0
    requires forall j :: 0 <= j < k ==> draws[j] == 0.0
    ensures NonNullRandom(draws) == Some(draws[k])
  {
    if k > 0 {
      NonNullRandomTakesFirst(draws[1..], k - 1);
    }
  }

  /** `1 / u`: the uncompressed crash point of a draw. */
  function Inverse(u: real): (r: real)
    requires u != 0.0
    ensures r * u == 1.0
    ensures 0.0 < u <= 1.0 ==> r >= 1.0
  {
    1.0 / u
  }

  /** The real-money house edge `1 + (r - 1) * 0.95`. */
  function Compress(x: real): (r: real)
    ensures x >= 1.0 ==> 1.0 <= r <= x
    ensures r - 1.0 == (x - 1.0) * HouseEdgeFactor
  {
    1.0 + (x - 1.0) * HouseEdgeFactor
  }

  /** `result > MAX_WIN ? MAX_WIN : result`. */
  function Cap(x: real, maxWin: real): (r: real)
    ensures r <= maxWin && r <= x
    ensures x <= maxWin ==> r == x
    ensures x > maxWin ==> r == maxWin
  {
    if x > maxWin then maxWin else x
  }

  /** The crash point of a round drawn with `u`. */
  function CrashPoint(u: real, isReal: bool, maxWin: real): (m: real)
    requires u != 0.0
    ensures m <= maxWin
    ensures 0.0 < u < 1.0 ==> m <= Inverse(u)
    ensures 0.0 < u < 1.0 && maxWin >= 1.0 ==> 1.0 <= m
    ensures !isReal && Inverse(u) <= maxWin ==> m == Inverse(u)
    ensures isReal && Compress(Inverse(u)) <= maxWin ==> m == Compress(Inverse(u))
    ensures (if isReal then Compress(Inverse(u)) else Inverse(u)) > maxWin ==> m == maxWin
  {
    var raw := Inverse(u);
    Cap(if isReal then Compress(raw) else raw, maxWin)
  }

  /** Every crash point the source can draw lies between 1 and `MAX_WIN`. */
  lemma CrashPointInRange(draws: seq<real>, isReal: bool, c: Config)
    requires AllDraws(draws) && ValidConfig(c)
    requires NonNullRandom(draws).Some?
    ensures 1.0 <= CrashPoint(NonNullRandom(draws).value, isReal, c.maxWin) <= c.maxWin
  {
    var u := NonNullRandom(draws).value;
    var k :| 0 <= k < |draws| && draws[k] == u;
    assert IsDraw(draws[k]);
  }

  // ------------------------------------------------------------------ curve

  /** The multiplier shown `t` milliseconds into the round: `1 + A t^2 / 2`. */
  function MultiplierAt(a: real, t: real): (m: real)
    ensures t == 0.0 ==> m == 1.0
    ensures a >= 0.0 ==> m >= 1.0
  {
    assert t * t >= 0.0;
    assert a >= 0.0 ==> a * (t * t) >= 0.0;
    1.0 + a * t * t / 2.0
  }

  /** The argument `(m - 1) / ACCELERATION * 2` of the square root that
      gives the delay at which the curve reaches `m`. */
  function DelaySquared(a: real, m: real): (d: real)
    requires a > 0.0
    ensures d * a == (m - 1.0) * 2.0
    ensures d >= 0.0 <==> m >= 1.0
  {
    (m - 1.0) / a * 2.0
  }

  lemma MultiplierIncreasing(a: real, t1: real, t2: real)
    requires a > 0.0 && 0.0 <= t1 < t2
    ensures MultiplierAt(a, t1) < MultiplierAt(a, t2)
  {
    SquareLess(t1, t2);
    PositiveProduct(a, t2 * t2 - t1 * t1);
    assert a * (t2 * t2 - t1 * t1) == a * t2 * t2 - a * t1 * t1;
  }

  lemma PositiveProduct(x: real, y: real)
    requires x > 0.0 && y > 0.0
    ensures x * y > 0.0
  {
  }

  lemma SquareLess(t1: real, t2: real)
    requires 0.0 <= t1 < t2
    ensures t1 * t1 < t2 * t2
  {
    PositiveProduct(t2 - t1, t2 + t1);
    assert (t2 - t1) * (t2 + t1) == t2 * t2 - t1 * t1;
  }

  /** A non-negative delay whose square is `DelaySquared(a, m)` is exactly the
      time at which the curve shows `m`, and no other non-negative time is. */
  lemma DelayReachesMultiplier(a: real, m: real, t: real)
    requires a > 0.0 && t >= 0.0
    ensures t * t == DelaySquared(a, m) <==> MultiplierAt(a, t) == m
  {
    var d := DelaySquared(a, m);
    assert d * a == (m - 1.0) * 2.0;
    if t * t == d {
      assert a * t * t == (m - 1.0) * 2.0;
    }
    if MultiplierAt(a, t) == m {
      assert a * (t * t) == (m - 1.0) * 2.0;
      assert (t * t) * a == d * a;
    }
  }

  // --------------------------------------------------------------- outcomes

  datatype Operation = Started | Crashed | Stopped

  /** The JSON message sent to the player's connection. */
  datatype Notice = Notice(operation: Operation, record: Option<HistoryRecord>)

  /** What the callback `startGame` arms will send and record, and the square
      of the delay it is armed with. */
  datatype Timer = Timer(operation: Operation, record: HistoryRecord, delaySquared: real)

  /** The branch of `startGame` on `result < autoStop`. */
  function Schedule(crash: real, bet: real, autoStop: real, a: real): (t: Timer)
    requires a > 0.0
    ensures t.operation == (if crash < autoStop then Crashed else Stopped)
    ensures Sound(t.record) && t.record.bet == bet
    ensures t.record.Won() <==> autoStop <= crash
    ensures Resolved(t.record) == (if crash < autoStop then crash else autoStop)
    ensures t.delaySquared == DelaySquared(a, Resolved(t.record))
  {
    if crash < autoStop then
      Timer(Crashed, HistoryRecord(At(crash), bet, X, -bet), DelaySquared(a, crash))
    else
      Timer(Stopped, HistoryRecord(X, bet, At(autoStop), bet * (autoStop - 1.0)), DelaySquared(a, autoStop))
  }

  /** The timer fires when the curve reaches the multiplier the round is
      resolved at: the crash point of a loss, the target of an auto-stop. */
  lemma ScheduleFiresOnCurve(crash: real, bet: real, autoStop: real, a: real, t: real)
    requires a > 0.0 && t >= 0.0
    requires t * t == Schedule(crash, bet, autoStop, a).delaySquared
    ensures MultiplierAt(a, t) == (if crash < autoStop then crash else autoStop)
  {
    var s := Schedule(crash, bet, autoStop, a);
    DelayReachesMultiplier(a, Resolved(s.record), t);
  }

  /** The square root taken for the delay has a non-negative argument exactly
      when the round resolves at a multiplier of at least 1: always for a loss
      at a drawn crash point, and for a win only when `autoStop` is at least 1
      (an `autoStop` below 1 gives `Math.sqrt` a negative argument). */
  lemma ScheduleDelayDefined(crash: real, bet: real, autoStop: real, a: real)
    requires a > 0.0 && crash >= 1.0
    ensures Schedule(crash, bet, autoStop, a).delaySquared >= 0.0 <==> autoStop >= 1.0 || crash < autoStop
    ensures crash < autoStop ==> Schedule(crash, bet, autoStop, a).delaySquared >= 0.0
    ensures autoStop < 1.0 ==> Schedule(crash, bet, autoStop, a).delaySquared < 0.0
  {
    var s := Schedule(crash, bet, autoStop, a);
    assert s.delaySquared >= 0.0 <==> Resolved(s.record) >= 1.0;
  }

  /** The record of `stopGame` after `elapsed` milliseconds. It does not
      depend on the crash point: a cash-out is always a win. */
  function CashOut(a: real, elapsed: real, bet: real): (r: HistoryRecord)
    ensures Sound(r) && r.Won() && r.bet == bet
    ensures Resolved(r) == MultiplierAt(a, elapsed)
  {
    var gain := a * elapsed * elapsed / 2.0;
    HistoryRecord(X, bet, At(gain + 1.0), bet * gain)
  }

  lemma CashOutNeverLoses(a: real, elapsed: real, bet: real)
    requires a > 0.0 && bet >= 0.0
    ensures Resolved(CashOut(a, elapsed, bet)) >= 1.0
    ensures CashOut(a, elapsed, bet).profit >= 0.0
  {
    var r := CashOut(a, elapsed, bet);
    assert elapsed * elapsed >= 0.0;
    assert a * (elapsed * elapsed) >= 0.0;
    assert Resolved(r) - 1.0 >= 0.0;
  }

  // ------------------------------------------------------------- statistics

  /** The effect of `writeStatistics` on the collection. */
  function Statistics(users: map<Id, User>, isReal: bool, userId: Option<Id>, rec: HistoryRecord): (r: map<Id, User>)
    ensures r.Keys == users.Keys
    ensures forall id :: id in users && userId != Some(id) ==> r[id] == users[id]
    ensures userId.Some? && userId.value in users ==>
      var u, v := users[userId.value], r[userId.value];
      && v.realHistory == (if isReal then u.realHistory + [rec] else u.realHistory)
      && v.realBalance == (if isReal then u.realBalance + rec.profit else u.realBalance)
      && v.virtualHistory == (if isReal then u.virtualHistory else u.virtualHistory + [rec])
      && v.virtualBalance == (if isReal then u.virtualBalance else u.virtualBalance + rec.profit)
      && v.(realHistory := u.realHistory, realBalance := u.realBalance,
            virtualHistory := u.virtualHistory, virtualBalance := u.virtualBalance) == u
    ensures userId.None? || userId.value !in users ==> r == users
  {
    if userId.Some? && userId.value in users then
      var u := users[userId.value];
      users[userId.value := if isReal
        then u.(realHistory := u.realHistory + [rec], realBalance := u.realBalance + rec.profit)
        else u.(virtualHistory := u.virtualHistory + [rec], virtualBalance := u.virtualBalance + rec.profit)]
    else
      users
  }

  lemma {:induction false} StatisticsKeepsConsistent(users: map<Id, User>, isReal: bool, userId: Option<Id>, rec: HistoryRecord)
    requires Consistent(users) && Sound(rec)
    ensures Consistent(Statistics(users, isReal, userId, rec))
  {
    var r := Statistics(users, isReal, userId, rec);
    forall id | id in r
      ensures AllSound(r[id].realHistory) && AllSound(r[id].virtualHistory)
    {
      var u := users[id];
      assert AllSound(u.realHistory) && AllSound(u.virtualHistory);
      if userId == Some(id) {
        AppendKeepsSound(u.realHistory, rec);
        AppendKeepsSound(u.virtualHistory, rec);
      }
    }
  }

  lemma AppendKeepsSound(h: seq<HistoryRecord>, rec: HistoryRecord)
    requires AllSound(h) && Sound(rec)
    ensures AllSound(h + [rec])
  {
    assert forall k :: 0 <= k < |h| ==> (h + [rec])[k] == h[k];
  }

  /** `writeStatistics`: push the record onto one ledger's history and add
      its profit to that ledger's balance. */
  method WriteStatistics(db: Table, isReal: bool, userId: Option<Id>, rec: HistoryRecord)
    modifies db
    ensures db.users == Statistics(old(db.users), isReal, userId, rec)
  {
    if userId.Some? && userId.value in db.users {
      var id := userId.value;
      var u := db.users[id];
      if isReal {
        db.users := db.users[id := u.(realHistory := u.realHistory + [rec])];
        db.users := db.users[id := db.users[id].(realBalance := u.realBalance + rec.profit)];
      } else {
        db.users := db.users[id := u.(virtualHistory := u.virtualHistory + [rec])];
        db.users := db.users[id := db.users[id].(virtualBalance := u.virtualBalance + rec.profit)];
      }
    }
  }

  // ------------------------------------------------------------ the engine

  /** An armed callback: what it resolves the round to, and whose ledger. */
  datatype Pending = Pending(timer: Timer, isReal: bool, userId: Option<Id>)

  /**
   * The module-level state of game/index.js. `timeout` holds the handle of
   * the last callback `startGame` armed; `timers` holds every callback armed
   * and not yet run or cleared (arming a new one does not clear the old).
   */
  class CrashGame {
    const config: Config
    var timers: map<nat, Pending>
    var timeout: Option<nat>
    var nextHandle: nat

    ghost predicate Valid()
      reads this
    {
      && ValidConfig(config)
      && (forall h :: h in timers ==> h < nextHandle && Sound(timers[h].timer.record))
      && (timeout.Some? ==> timeout.value < nextHandle)
    }

    constructor (config: Config)
      requires ValidConfig(config)
      ensures Valid() && this.config == config
      ensures timers == map[] && timeout == None
    {
      this.config := config;
      timers := map[];
      timeout := None;
      nextHandle := 0;
    }

    /** `startGame`: sample the crash point, announce the start, and arm the
        callback that resolves the round; returns the start time. */
    method StartGame(data: GameData, draws: seq<real>, now: int) returns (notice: Notice, started: int)
      requires Valid() && AllDraws(draws)
      requires exists k :: 0 <= k < |draws| && draws[k] != 0.0
      modifies this
      ensures Valid()
      ensures notice == Notice(Started, None) && started == now
      ensures old(nextHandle) !in old(timers)
      ensures timeout == Some(old(nextHandle)) && nextHandle == old(nextHandle) + 1
      ensures timers == old(timers)[old(nextHandle) := Pending(
        Schedule(CrashPoint(NonNullRandom(draws).value, data.isReal, config.maxWin),
                 data.bet, data.autoStop, config.acceleration),
        data.isReal, data.userId)]
    {
      var u := NonNullRandom(draws).value;
      var result := CrashPoint(u, data.isReal, config.maxWin);
      notice := Notice(Started, None);
      var timer := Schedule(result, data.bet, data.autoStop, config.acceleration);
      var handle := nextHandle;
      timers := timers[handle := Pending(timer, data.isReal, data.userId)];
      timeout := Some(handle);
      nextHandle := nextHandle + 1;
      started := now;
    }

    /** The armed callback `h` runs: it sends the outcome and records it. */
    method Fire(h: nat, db: Table) returns (notice: Notice)
      requires Valid() && h in timers
      modifies this, db
      ensures Valid()
      ensures timers == old(timers) - {h}
      ensures timeout == old(timeout) && nextHandle == old(nextHandle)
      ensures notice == Notice(old(timers)[h].timer.operation, Some(old(timers)[h].timer.record))
      ensures db.users == Statistics(old(db.users), old(timers)[h].isReal, old(timers)[h].userId, old(timers)[h].timer.record)
      ensures Consistent(old(db.users)) ==> Consistent(db.users)
    {
      var p := timers[h];
      timers := timers - {h};
      notice := Notice(p.timer.operation, Some(p.timer.record));
      if Consistent(db.users) {
        StatisticsKeepsConsistent(db.users, p.isReal, p.userId, p.timer.record);
      }
      WriteStatistics(db, p.isReal, p.userId, p.timer.record);
    }

    /** `stopGame`: clear the last armed callback and record a cash-out at the
        multiplier the curve shows `now - startTime` milliseconds in. */
    method StopGame(startTime: int, now: int, bet: real, isReal: bool, userId: Option<Id>, db: Table)
      returns (notice: Notice)
      requires Valid()
      modifies this, db
      ensures Valid()
      ensures timers == if old(timeout).Some? then old(timers) - {old(timeout).value} else old(timers)
      ensures timeout == old(timeout) && nextHandle == old(nextHandle)
      ensures notice == Notice(Stopped, Some(CashOut(config.acceleration, (now - startTime) as real, bet)))
      ensures db.users == Statistics(old(db.users), isReal, userId, CashOut(config.acceleration, (now - startTime) as real, bet))
      ensures Consistent(old(db.users)) ==> Consistent(db.users)
    {
      if timeout.Some? {
        timers := timers - {timeout.value};
      }
      var rec := CashOut(config.acceleration, (now - startTime) as real, bet);
      notice := Notice(Stopped, Some(rec));
      if Consistent(db.users) {
        StatisticsKeepsConsistent(db.users, isReal, userId, rec);
      }
      WriteStatistics(db, isReal, userId, rec);
    }
  }
}
