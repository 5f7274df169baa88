/**
 * Account validation and bookkeeping of router/userBase.js: the format
 * validators, the random key generator, the uniqueness and session checks,
 * the profile-page history summary, deposit crediting and the withdraw guards.
 */
module UserBase {
  import opened Wrappers
  import opened Random
  import opened Store

  /** The messages the source throws. */
  datatype Error =
    | NameOccupied        // 'name_occupied'
    | EmailNotRegistered  // 'email_not_registered'
    | EmailOccupied       // 'email_occupied'
    | NameIncorrect       // 'name_incorrect'
    | Password            // 'password'
    | Session             // 'session'
    | Login               // 'login'
    | LessThanOne         // 'less than 1'

  // ------------------------------------------------------------ validators
  // An argument that is `undefined` is `None`.

  function ValidateName(name: Option<string>): (r: Outcome<Error>)
    ensures r.Pass? <==>
      name.Some? && 4 <= |name.value| <= 25 && forall i :: 0 <= i < |name.value| ==> name.value[i] != '@'
    ensures r.Fail? ==> r.error == NameIncorrect
  {
    if name.Some? && 4 <= |name.value| <= 25 && '@' !in name.value then Pass else Fail(NameIncorrect)
  }

  function ValidatePassword(password: Option<string>): (r: Outcome<Error>)
    ensures r.Pass? <==> password.Some? && 8 <= |password.value| <= 25
    ensures r.Fail? ==> r.error == Password
  {
    match password
    case Some(p) => if 8 <= |p| <= 25 then Pass else Fail(Password)
    case None => Fail(Password)
  }

  function ValidateSession(session: Option<string>): (r: Outcome<Error>)
    ensures r.Pass? <==> session.Some? && |session.value| == 32
    ensures r.Fail? ==> r.error == Session
  {
    match session
    case Some(s) => if |s| == 32 then Pass else Fail(Session)
    case None => Fail(Session)
  }

  // -------------------------------------------------------- random strings

  /** `n` consecutive characters starting at `first`. */
  function Run(first: char, n: nat): (s: string)
    requires first as int + n <= 0xD800
    ensures |s| == n
    ensures forall i :: 0 <= i < n ==> s[i] as int == first as int + i
  {
    seq(n, i requires 0 <= i < n => (first as int + i) as char)
  }

  /** The `characters` of `generateRandomString`: A to Z, a to z, 0 to 9. */
  const Characters: string := Run('A', 26) + Run('a', 26) + Run('0', 10)

  predicate IsAlphanumeric(c: char) {
    'A' <= c <= 'Z' || 'a' <= c <= 'z' || '0' <= c <= '9'
  }

  /** The alphabet has 62 characters and consists of exactly the Latin
      letters and the decimal digits. */
  lemma CharactersAreAlphanumeric()
    ensures |Characters| == 62
    ensures forall i :: 0 <= i < |Characters| ==> IsAlphanumeric(Characters[i])
    ensures forall c :: IsAlphanumeric(c) <==> c in Characters
  {
    var upper, lower, digits := Run('A', 26), Run('a', 26), Run('0', 10);
    assert Characters == upper + lower + digits;
    forall i | 0 <= i < |Characters|
      ensures IsAlphanumeric(Characters[i])
    {
      if i < 26 {
        assert Characters[i] == upper[i];
      } else if i < 52 {
        assert Characters[i] == lower[i - 26];
      } else {
        assert Characters[i] == digits[i - 52];
      }
    }
    forall c | IsAlphanumeric(c)
      ensures c in Characters
    {
      if 'A' <= c <= 'Z' {
        assert Characters[c as int - 'A' as int] == c;
      } else if 'a' <= c <= 'z' {
        assert Characters[26 + c as int - 'a' as int] == c;
      } else {
        assert Characters[52 + c as int - '0' as int] == c;
      }
    }
  }

  /** `Math.floor(Math.random() * charactersLength)`. */
  function CharIndex(u: real): (k: int)
    requires IsDraw(u)
    ensures 0 <= k < |Characters|
  {
    CharactersAreAlphanumeric();
    (u * 62.0).Floor
  }

  /** `generateRandomString(length)`, drawing the i-th character with the
      i-th draw. A length below 1 gives the empty string. */
  method GenerateRandomString(length: int, draws: seq<real>) returns (s: string)
    requires |draws| >= length && AllDraws(draws)
    ensures |s| == if length > 0 then length else 0
    ensures forall i :: 0 <= i < |s| ==> s[i] == Characters[CharIndex(draws[i])]
    ensures forall i :: 0 <= i < |s| ==> IsAlphanumeric(s[i])
  {
    CharactersAreAlphanumeric();
    s := "";
    var i := 0;
    while i < length
      invariant 0 <= i <= (if length > 0 then length else 0)
      invariant |s| == i
      invariant forall j :: 0 <= j < i ==> s[j] == Characters[CharIndex(draws[j])]
    {
      s := s + [Characters[CharIndex(draws[i])]];
      i := i + 1;
    }
  }

  // -------------------------------------------------- uniqueness and login

  function IsNameUnique(users: map<Id, User>, name: string): (r: Outcome<Error>)
    ensures r.Fail? <==> exists id :: id in users && users[id].name == name
    ensures r.Fail? ==> r.error == NameOccupied
  {
    if name in (set id | id in users :: users[id].name) then Fail(NameOccupied) else Pass
  }

  function IsEmailUnique(users: map<Id, User>, email: string): (r: Outcome<Error>)
    ensures r.Fail? <==> exists id :: id in users && users[id].email == email
    ensures r.Fail? ==> r.error == EmailOccupied
  {
    if email in (set id | id in users :: users[id].email) then Fail(EmailOccupied) else Pass
  }

  function IsEmailRegistered(users: map<Id, User>, email: string): (r: Outcome<Error>)
    ensures r.Fail? <==> forall id :: id in users ==> users[id].email != email
    ensures r.Fail? ==> r.error == EmailNotRegistered
  {
    if email in (set id | id in users :: users[id].email) then Pass else Fail(EmailNotRegistered)
  }

  /** Registration and recovery ask opposite questions of the same lookup. */
  lemma EmailChecksAreComplementary(users: map<Id, User>, email: string)
    ensures IsEmailRegistered(users, email).Pass? <==> IsEmailUnique(users, email).Fail?
  {
  }

  predicate DistinctNames(users: map<Id, User>) {
    forall a, b :: a in users && b in users && a != b ==> users[a].name != users[b].name
  }

  /** What `isNameUnique` is for: a document inserted under a fresh id with
      a name that passed it keeps all names distinct. */
  lemma UniqueNameKeepsNamesDistinct(users: map<Id, User>, id: Id, u: User)
    requires DistinctNames(users) && id !in users
    requires IsNameUnique(users, u.name).Pass?
    ensures DistinctNames(users[id := u])
  {
    var r := users[id := u];
    forall a, b | a in r && b in r && a != b
      ensures r[a].name != r[b].name
    {
      if a == id {
        assert r[b] == users[b];
      } else if b == id {
        assert r[a] == users[a];
      }
    }
  }

  /** `checkSession`: the key's format first, then the user, then the key. */
  function CheckSession(users: map<Id, User>, userId: Id, session: Option<string>): (r: Outcome<Error>)
    ensures ValidateSession(session).Fail? ==> r == Fail(Session)
    ensures ValidateSession(session).Pass? && userId !in users ==> r == Fail(NameIncorrect)
    ensures ValidateSession(session).Pass? && userId in users && users[userId].session != session ==> r == Fail(Session)
    ensures r.Pass? <==> session.Some? && |session.value| == 32 && userId in users && users[userId].session == session
    ensures r.Fail? ==> r.error == Session || r.error == NameIncorrect
  {
    match ValidateSession(session)
    case Fail(e) => Fail(e)
    case Pass =>
      if userId !in users then Fail(NameIncorrect)
      else if users[userId].session != session then Fail(Session)
      else Pass
  }

  /** `checkNameAndPassword`. Hashing the password with its salts is not
      modelled: `passwordMatches` says whether the hash equals the stored one. */
  function CheckNameAndPassword(users: map<Id, User>, name: string, passwordMatches: bool): (r: Outcome<Error>)
    ensures r.Pass? <==> passwordMatches && exists id :: id in users && users[id].name == name
    ensures (forall id :: id in users ==> users[id].name != name) ==> r == Fail(Login)
    ensures (exists id :: id in users && users[id].name == name) && !passwordMatches ==> r == Fail(Password)
  {
    if name !in (set id | id in users :: users[id].name) then Fail(Login)
    else if !passwordMatches then Fail(Password)
    else Pass
  }

  // ---------------------------------------------------------- usersInfo

  /** `history.filter(j => j.crash === 'x')`. */
  function WonRecords(h: seq<HistoryRecord>): (r: seq<HistoryRecord>)
    ensures |r| <= |h|
    ensures forall x :: x in r <==> x in h && x.Won()
  {
    if h == [] then []
    else
      var rest := WonRecords(h[..|h| - 1]);
      assert h == h[..|h| - 1] + [h[|h| - 1]];
      if h[|h| - 1].Won() then rest + [h[|h| - 1]] else rest
  }

  /** `history.filter(j => j.stop === 'x')`. */
  function LostRecords(h: seq<HistoryRecord>): (r: seq<HistoryRecord>)
    ensures |r| <= |h|
    ensures forall x :: x in r <==> x in h && x.Lost()
  {
    if h == [] then []
    else
      var rest := LostRecords(h[..|h| - 1]);
      assert h == h[..|h| - 1] + [h[|h| - 1]];
      if h[|h| - 1].Lost() then rest + [h[|h| - 1]] else rest
  }

  /** The filters keep every copy of a kept record: identical records (the
      records carry no date) are counted as many times as they were played. */
  lemma {:induction false} RecordsKeepMultiplicity(h: seq<HistoryRecord>)
    ensures forall x :: multiset(WonRecords(h))[x] == if x.Won() then multiset(h)[x] else 0
    ensures forall x :: multiset(LostRecords(h))[x] == if x.Lost() then multiset(h)[x] else 0
  {
    if h != [] {
      var init, last := h[..|h| - 1], h[|h| - 1];
      RecordsKeepMultiplicity(init);
      assert h == init + [last];
      assert multiset(h) == multiset(init) + multiset{last};
    }
  }

  /** One more round adds one to exactly the count its record belongs to. */
  lemma RoundCounted(h: seq<HistoryRecord>, rec: HistoryRecord)
    ensures |WonRecords(h + [rec])| == |WonRecords(h)| + (if rec.Won() then 1 else 0)
    ensures |LostRecords(h + [rec])| == |LostRecords(h)| + (if rec.Lost() then 1 else 0)
  {
    assert (h + [rec])[..|h|] == h;
  }

  /** In a history of well-formed records every game is a win or a loss. */
  lemma {:induction false} WinsAndLossesPartition(h: seq<HistoryRecord>)
    requires forall k :: 0 <= k < |h| ==> WellFormed(h[k])
    ensures |WonRecords(h)| + |LostRecords(h)| == |h|
  {
    if h != [] {
      var init := h[..|h| - 1];
      assert forall k :: 0 <= k < |init| ==> init[k] == h[k];
      WinsAndLossesPartition(init);
      assert h == init + [h[|h| - 1]];
      RoundCounted(init, h[|h| - 1]);
    }
  }

  /** `history.slice(history.length - historySize)` when the history is
      longer than `historySize`, the history itself otherwise. */
  function LastEntries(h: seq<HistoryRecord>, historySize: int): (r: seq<HistoryRecord>)
    requires historySize != 0
    ensures historySize > 0 ==> |r| == (if |h| > historySize then historySize else |h|)
    ensures historySize > 0 ==> r == h[|h| - |r|..]
    ensures historySize < 0 ==> r == []
  {
    if |h| > historySize then
      var start := |h| - historySize;
      if start >= |h| then [] else h[start..]
    else h
  }

  datatype Summary = Summary(games: nat, wins: nat, losses: nat)

  /** The profile of one user as `usersInfo` returns it. */
  datatype UserInfo = UserInfo(
    name: string,
    realBalance: real,
    virtualBalance: real,
    realHistory: seq<HistoryRecord>,
    virtualHistory: seq<HistoryRecord>,
    realStats: Option<Summary>,
    virtualStats: Option<Summary>)

  function Summarize(h: seq<HistoryRecord>): Summary {
    Summary(|h|, |WonRecords(h)|, |LostRecords(h)|)
  }

  /** The callback of `data.map` for one document. A `historySize` of 0
      stands for an absent (falsy) one. With it, the counts describe the
      whole history and the history shown is its last `historySize` entries;
      without it nothing is counted or trimmed. */
  function Info(u: User, historySize: int): (p: UserInfo)
    ensures p.name == u.name && p.realBalance == u.realBalance && p.virtualBalance == u.virtualBalance
    ensures historySize == 0 ==>
      && p.realStats.None? && p.virtualStats.None?
      && p.realHistory == u.realHistory && p.virtualHistory == u.virtualHistory
    ensures historySize != 0 ==>
      && p.realStats.Some? && p.realStats.value.games == |u.realHistory|
      && p.realStats.value.wins == |WonRecords(u.realHistory)|
      && p.realStats.value.losses == |LostRecords(u.realHistory)|
      && p.virtualStats.Some? && p.virtualStats.value.games == |u.virtualHistory|
      && p.virtualStats.value.wins == |WonRecords(u.virtualHistory)|
      && p.virtualStats.value.losses == |LostRecords(u.virtualHistory)|
    ensures historySize < 0 ==> p.realHistory == [] && p.virtualHistory == []
    ensures historySize > 0 ==>
      && |p.realHistory| == (if |u.realHistory| > historySize then historySize else |u.realHistory|)
      && p.realHistory == u.realHistory[|u.realHistory| - |p.realHistory|..]
      && |p.virtualHistory| == (if |u.virtualHistory| > historySize then historySize else |u.virtualHistory|)
      && p.virtualHistory == u.virtualHistory[|u.virtualHistory| - |p.virtualHistory|..]
  {
    if historySize == 0 then
      UserInfo(u.name, u.realBalance, u.virtualBalance, u.realHistory, u.virtualHistory, None, None)
    else
      UserInfo(u.name, u.realBalance, u.virtualBalance,
               LastEntries(u.realHistory, historySize), LastEntries(u.virtualHistory, historySize),
               Some(Summarize(u.realHistory)), Some(Summarize(u.virtualHistory)))
  }

  /** The order in which `find()` returns the documents: every document of
      the collection, each once. */
  predicate Listing(order: seq<Id>, users: map<Id, User>) {
    && (forall i :: 0 <= i < |order| ==> order[i] in users)
    && (forall id :: id in users ==> id in order)
    && (forall i, j :: 0 <= i < j < |order| ==> order[i] != order[j])
  }

  lemma {:induction false} ListingSize(order: seq<Id>, keys: set<Id>)
    requires forall i :: 0 <= i < |order| ==> order[i] in keys
    requires forall id :: id in keys ==> id in order
    requires forall i, j :: 0 <= i < j < |order| ==> order[i] != order[j]
    ensures |order| == |keys|
  {
    if order != [] {
      var init, last := order[..|order| - 1], order[|order| - 1];
      assert forall i :: 0 <= i < |init| ==> init[i] == order[i];
      forall id | id in keys - {last}
        ensures id in init
      {
        var k :| 0 <= k < |order| && order[k] == id;
        assert k < |order| - 1;
        assert init[k] == id;
      }
      ListingSize(init, keys - {last});
    }
  }

  /** `usersInfo`: one profile per document of the collection, in the order
      the cursor yields them. */
  function UsersInfo(users: map<Id, User>, order: seq<Id>, historySize: int): (r: seq<UserInfo>)
    requires Listing(order, users)
    ensures |r| == |order| == |users|
    ensures forall id :: id in users ==> exists i :: 0 <= i < |r| && order[i] == id && r[i] == Info(users[id], historySize)
  {
    ListingSize(order, users.Keys);
    var r := seq(|order|, i requires 0 <= i < |order| => Info(users[order[i]], historySize));
    assert forall i :: 0 <= i < |order| ==> r[i] == Info(users[order[i]], historySize);
    r
  }

  /** For documents whose game records each have exactly one 'x' column (the
      game engine writes only such records), wins and losses add up to the
      games played. */
  lemma UsersInfoCountsAddUp(u: User, historySize: int)
    requires historySize != 0
    requires forall k :: 0 <= k < |u.realHistory| ==> WellFormed(u.realHistory[k])
    requires forall k :: 0 <= k < |u.virtualHistory| ==> WellFormed(u.virtualHistory[k])
    ensures var s := Info(u, historySize).realStats.value; s.wins + s.losses == s.games
    ensures var s := Info(u, historySize).virtualStats.value; s.wins + s.losses == s.games
  {
    WinsAndLossesPartition(u.realHistory);
    WinsAndLossesPartition(u.virtualHistory);
  }

  // -------------------------------------------------------------- deposits

  /** Satoshi kept back for the fee of the sweep transaction. */
  const SweepFee: int := 1500

  /** Share of a guest's deposit credited to the inviter. */
  const InviterShare: real := 0.03

  /** `parseInt((n / 100).toFixed(0))`: the integer nearest to n/100, halves
      rounded away from zero. */
  function RoundHundredths(n: int): (r: int)
    ensures n >= 0 ==> 100 * r - 50 <= n < 100 * r + 50
    ensures n < 0 ==> 100 * r - 50 < n <= 100 * r + 50
  {
    if n >= 0 then (n + 50) / 100 else -((-n + 50) / 100)
  }

  /** The address data `checkDeposits` hands to `writeDepositDataToDB`. */
  datatype BtcReport = BtcReport(email: string, name: string, inviter: Option<Id>, received: int, totalReceived: int)

  /** `amount` of `writeDepositDataToDB`: the received total less the
      recorded deposits and the fee, divided by 100. This mixes units as the
      source does: `received` is `btc.deposited`, kept in hundreds of satoshi
      (the guard of `checkDeposits` scales it by 100), while `totalReceived`
      and the fee are in satoshi and are not scaled back. */
  function DepositAmount(report: BtcReport): (a: int)
    ensures var n := report.totalReceived - report.received - SweepFee;
      -50 <= 100 * a - n <= 50 && (n >= 0 ==> a >= 0) && (n < 0 ==> a <= 0)
  {
    RoundHundredths(report.totalReceived - report.received - SweepFee)
  }

  /** The depositor's update: the same amount on `btc.deposited` and
      `balance.real`, and one entry more in `btc.deposits`. */
  function CreditDeposit(u: User, amount: int, entry: Deposit): (v: User)
    ensures v.deposited - u.deposited == amount && v.realBalance - u.realBalance == amount as real
    ensures v.deposits == u.deposits + [entry]
    ensures v.(deposited := u.deposited, realBalance := u.realBalance, deposits := u.deposits) == u
  {
    u.(deposited := u.deposited + amount, realBalance := u.realBalance + amount as real,
       deposits := u.deposits + [entry])
  }

  /** The inviter's update: the bonus on `balance.real`, and one entry more
      in `btc.affilation`. */
  function CreditInviter(u: User, entry: Affiliation): (v: User)
    ensures v.realBalance - u.realBalance == entry.amount
    ensures v.affiliation == u.affiliation + [entry]
    ensures v.(realBalance := u.realBalance, affiliation := u.affiliation) == u
  {
    u.(realBalance := u.realBalance + entry.amount, affiliation := u.affiliation + [entry])
  }

  /** The effect of `writeDepositDataToDB` on the collection, once the
      depositor's document (if any) is known. */
  function DepositEffect(users: map<Id, User>, depositor: Option<Id>, inviter: Option<Id>,
                         amount: int, entry: Deposit, bonus: Affiliation): (r: map<Id, User>)
    ensures r.Keys == users.Keys
    ensures forall id :: id in users && depositor != Some(id) && inviter != Some(id) ==> r[id] == users[id]
    ensures depositor.Some? && depositor.value in users && depositor != inviter ==>
      r[depositor.value] == CreditDeposit(users[depositor.value], amount, entry)
    ensures inviter.Some? && inviter.value in users && depositor != inviter ==>
      r[inviter.value] == CreditInviter(users[inviter.value], bonus)
    ensures depositor.Some? && depositor.value in users && depositor == inviter ==>
      r[depositor.value] == CreditInviter(CreditDeposit(users[depositor.value], amount, entry), bonus)
  {
    var credited := if depositor.Some? && depositor.value in users
      then users[depositor.value := CreditDeposit(users[depositor.value], amount, entry)]
      else users;
    if inviter.Some? && inviter.value in credited
    then credited[inviter.value := CreditInviter(credited[inviter.value], bonus)]
    else credited
  }

  /** Deposits touch no game history. */
  lemma DepositKeepsConsistent(users: map<Id, User>, depositor: Option<Id>, inviter: Option<Id>,
                               amount: int, entry: Deposit, bonus: Affiliation)
    requires Consistent(users)
    ensures Consistent(DepositEffect(users, depositor, inviter, amount, entry, bonus))
  {
    var r := DepositEffect(users, depositor, inviter, amount, entry, bonus);
    forall id | id in r
      ensures AllSound(r[id].realHistory) && AllSound(r[id].virtualHistory)
    {
      assert r[id].realHistory == users[id].realHistory;
      assert r[id].virtualHistory == users[id].virtualHistory;
    }
  }

  /** `writeDepositDataToDB`: credit the document with the report's email,
      and its inviter with 3% of the amount. The deposit id is
      `generateRandomString(8)`. */
  method WriteDepositData(db: Table, report: BtcReport, draws: seq<real>, now: int)
    returns (depositor: Option<Id>, entry: Deposit)
    requires |draws| >= 8 && AllDraws(draws)
    modifies db
    ensures depositor.None? <==> forall id :: id in old(db.users) ==> old(db.users)[id].email != report.email
    ensures depositor.Some? ==> depositor.value in old(db.users) && old(db.users)[depositor.value].email == report.email
    ensures entry.amount == DepositAmount(report) && entry.date == now
    ensures |entry.id| == 8 && forall i :: 0 <= i < 8 ==> IsAlphanumeric(entry.id[i])
    ensures db.users == DepositEffect(old(db.users), depositor, report.inviter, entry.amount, entry,
      Affiliation(now, DepositAmount(report) as real * InviterShare, report.name, report.email))
    ensures Consistent(old(db.users)) ==> Consistent(db.users)
  {
    var amount := DepositAmount(report);
    var id := GenerateRandomString(8, draws);
    entry := Deposit(id, amount, now);
    var bonus := Affiliation(now, amount as real * InviterShare, report.name, report.email);
    depositor := FindByEmail(db.users, report.email);
    ghost var before := db.users;
    var credited := db.users;
    if depositor.Some? {
      credited := credited[depositor.value := CreditDeposit(credited[depositor.value], amount, entry)];
    }
    if report.inviter.Some? && report.inviter.value in credited {
      var inv := report.inviter.value;
      credited := credited[inv := CreditInviter(credited[inv], bonus)];
    }
    assert credited == DepositEffect(before, depositor, report.inviter, amount, entry, bonus);
    db.users := credited;
    if Consistent(before) {
      DepositKeepsConsistent(before, depositor, report.inviter, amount, entry, bonus);
    }
  }

  /** `updateOne({ email })` picks one document with that email, if any. */
  method FindByEmail(users: map<Id, User>, email: string) returns (d: Option<Id>)
    ensures d.None? <==> forall id :: id in users ==> users[id].email != email
    ensures d.Some? ==> d.value in users && users[d.value].email == email
  {
    if exists id :: id in users && users[id].email == email {
      var id :| id in users && users[id].email == email;
      d := Some(id);
    } else {
      d := None;
    }
  }

  // ------------------------------------------------------------- withdraw

  /** `btc.withdraws` after a withdrawal as the source writes it: `$set`
      replaces the list with the new entry. */
  function WithdrawLogAsWritten(log: seq<Withdrawal>, w: Withdrawal): (r: seq<Withdrawal>)
    ensures forall x :: x in r <==> x == w
  {
    [w]
  }

  /** The as-written update forgets earlier withdrawals. */
  lemma WithdrawLogAsWrittenForgets(w1: Withdrawal, w2: Withdrawal)
    ensures WithdrawLogAsWritten([w1], w2) != [w1, w2]
  {
    assert |WithdrawLogAsWritten([w1], w2)| == 1;
  }

  /** `btc.withdraws` after a withdrawal, appended as every other list of
      the document is. */
  function WithdrawLog(log: seq<Withdrawal>, w: Withdrawal): (r: seq<Withdrawal>)
    ensures |r| == |log| + 1 && r[..|log|] == log && r[|log|] == w
  {
    log + [w]
  }

  /** The checks of `withdraw` before the balance is looked at. */
  function WithdrawChecks(users: map<Id, User>, userId: Id, session: Option<string>, name: string,
                          passwordMatches: bool, amount: real): (r: Outcome<Error>)
    ensures CheckSession(users, userId, session).Fail? ==> r == CheckSession(users, userId, session)
    ensures CheckSession(users, userId, session).Pass? && CheckNameAndPassword(users, name, passwordMatches).Fail? ==>
      r == CheckNameAndPassword(users, name, passwordMatches)
    ensures r.Pass? <==>
      CheckSession(users, userId, session).Pass? && CheckNameAndPassword(users, name, passwordMatches).Pass? && amount >= 1.0
    ensures (CheckSession(users, userId, session).Pass? && CheckNameAndPassword(users, name, passwordMatches).Pass?
             && amount < 1.0) ==> r == Fail(LessThanOne)
  {
    match CheckSession(users, userId, session)
    case Fail(e) => Fail(e)
    case Pass =>
      match CheckNameAndPassword(users, name, passwordMatches)
      case Fail(e) => Fail(e)
      case Pass => if amount < 1.0 then Fail(LessThanOne) else Pass
  }

  /** `withdraw`. After the checks, the document with `name` is read; when
      its real balance covers the amount the withdrawal is logged and
      returned, otherwise nothing happens and nothing is returned. The
      balance itself is left as it is. */
  method Withdraw(db: Table, userId: Id, session: Option<string>, name: string, passwordMatches: bool,
                  amount: real, address: string, now: int)
    returns (r: Result<Option<Withdrawal>, Error>, account: Option<Id>)
    modifies db
    ensures var checks := WithdrawChecks(old(db.users), userId, session, name, passwordMatches, amount);
      checks.Fail? ==> r == Failure(checks.error) && account.None? && db.users == old(db.users)
    ensures WithdrawChecks(old(db.users), userId, session, name, passwordMatches, amount).Pass? ==>
      && account.Some? && account.value in old(db.users) && old(db.users)[account.value].name == name
      && var u, w := old(db.users)[account.value], Withdrawal(now, amount, address);
      if u.realBalance >= amount then
        r == Success(Some(w)) && db.users == old(db.users)[account.value := u.(withdraws := WithdrawLog(u.withdraws, w))]
      else
        r == Success(None) && db.users == old(db.users)
    ensures forall id :: id in db.users ==> id in old(db.users) && db.users[id].realBalance == old(db.users)[id].realBalance
    ensures Consistent(old(db.users)) ==> Consistent(db.users)
  {
    var checks := WithdrawChecks(db.users, userId, session, name, passwordMatches, amount);
    if checks.Fail? {
      return Failure(checks.error), None;
    }
    var id :| id in db.users && db.users[id].name == name;
    account := Some(id);
    var u := db.users[id];
    if u.realBalance >= amount {
      var w := Withdrawal(now, amount, address);
      db.users := db.users[id := u.(withdraws := WithdrawLog(u.withdraws, w))];
      r := Success(Some(w));
    } else {
      r := Success(None);
    }
  }
}
