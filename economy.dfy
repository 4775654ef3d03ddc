/** The coin ledger behind the casino commands: balances that never go
    below zero, a cooldown between gambles, an hourly reward and a
    leaderboard. */
module Economy {
  type UserId = string

  const HOURLY_MIN: int := 100
  const HOURLY_MAX: int := 200
  const HOURLY_COOLDOWN: int := 60 * 60 * 1000
  const GAMBLING_COOLDOWN: int := 3000

  /** A stored user record. */
  datatype UserData = UserData(balance: int, lastHourly: int)

  /** The record an unknown user reads as. */
  const NEW_USER: UserData := UserData(0, 0)

  /** `Math.max(0, balance + amount)`. */
  function Clamped(balance: int, amount: int): (b: int)
    ensures b >= 0
    ensures b >= balance + amount
    ensures b > 0 ==> b == balance + amount
  {
    if balance + amount < 0 then 0 else balance + amount
  }

  /** Removing after adding the same amount to a balance that stays
      non-negative gives the balance back. */
  lemma AddThenRemove(balance: int, amount: int)
    requires balance >= 0 && amount >= 0
    ensures Clamped(Clamped(balance, amount), -amount) == balance
  {
  }

  /** When `hasBalance(u, x)` holds for `x >= 0`, removing `x` lowers the balance by exactly `x`. */
  lemma RemoveCovered(balance: int, amount: int)
    requires 0 <= amount <= balance
    ensures Clamped(balance, -amount) == balance - amount
  {
  }

  /** The Math.random draw of `claimHourly`: `floor(r * 101) + 100`. */
  function HourlyReward(r: real): (reward: int)
    requires 0.0 <= r < 1.0
    ensures HOURLY_MIN <= reward <= HOURLY_MAX
  {
    (r * (HOURLY_MAX - HOURLY_MIN + 1) as real).Floor + HOURLY_MIN
  }

  /** The result of `checkGamblingCooldown`. */
  datatype Cooldown = Ready | OnCooldown(remaining: int)

  /** The result of `claimHourly`. */
  datatype Hourly = Claimed(reward: int, newBalance: int) | HourlyOnCooldown(remaining: int)

  /** One leaderboard line: `{ userId, balance }`. */
  datatype Entry = Entry(userId: UserId, balance: int)

  // ------------------------------------------------------------ leaderboard

  predicate SortedDesc(s: seq<Entry>) {
    forall i, j :: 0 <= i < j < |s| ==> s[i].balance >= s[j].balance
  }

  /** Puts `x` after every entry whose balance is at least its own. */
  function Insert(s: seq<Entry>, x: Entry): (r: seq<Entry>)
    ensures |r| == |s| + 1
    ensures multiset(r) == multiset(s) + multiset{x}
    decreases |s|
  {
    if s == [] then [x]
    else if s[0].balance >= x.balance then
      assert s == [s[0]] + s[1..];
      [s[0]] + Insert(s[1..], x)
    else [x] + s
  }

  lemma {:induction false} InsertSorted(s: seq<Entry>, x: Entry)
    requires SortedDesc(s)
    ensures SortedDesc(Insert(s, x))
    decreases |s|
  {
    if s != [] && s[0].balance >= x.balance {
      InsertSorted(s[1..], x);
      HeadBound(s, x, Insert(s[1..], x));
      ConsSorted(s[0], Insert(s[1..], x));
    } else if s != [] {
      ConsSorted(x, s);
    }
  }

  /** Whatever holds the tail of a sorted sequence and `x`, with `x` no
      higher than the head, is no higher than the head. */
  lemma HeadBound(s: seq<Entry>, x: Entry, t: seq<Entry>)
    requires SortedDesc(s) && s != [] && s[0].balance >= x.balance
    requires multiset(t) == multiset(s[1..]) + multiset{x}
    ensures forall i :: 0 <= i < |t| ==> t[i].balance <= s[0].balance
  {
    forall i | 0 <= i < |t| ensures t[i].balance <= s[0].balance {
      assert t[i] in multiset(t);
      if t[i] != x {
        assert t[i] in multiset(s[1..]);
        var j :| 0 <= j < |s[1..]| && s[1..][j] == t[i];
        assert s[j + 1] == t[i];
      }
    }
  }

  /** A head no lower than anything after it keeps the sequence sorted. */
  lemma ConsSorted(h: Entry, t: seq<Entry>)
    requires SortedDesc(t)
    requires forall i :: 0 <= i < |t| ==> t[i].balance <= h.balance
    ensures SortedDesc([h] + t)
  {
    var r := [h] + t;
    forall i, j | 0 <= i < j < |r| ensures r[i].balance >= r[j].balance {
      if i > 0 {
        assert r[i] == t[i - 1] && r[j] == t[j - 1];
      } else {
        assert r[j] == t[j - 1];
      }
    }
  }

  /** `.sort((a, b) => b.balance - a.balance)`: a stable sort by balance,
      highest first. */
  function SortByBalance(es: seq<Entry>): (r: seq<Entry>)
    ensures |r| == |es|
    ensures multiset(r) == multiset(es)
    decreases |es|
  {
    if es == [] then []
    else
      assert es == es[..|es| - 1] + [es[|es| - 1]];
      Insert(SortByBalance(es[..|es| - 1]), es[|es| - 1])
  }

  lemma {:induction false} SortByBalanceSorted(es: seq<Entry>)
    ensures SortedDesc(SortByBalance(es))
    decreases |es|
  {
    if es != [] {
      SortByBalanceSorted(es[..|es| - 1]);
      InsertSorted(SortByBalance(es[..|es| - 1]), es[|es| - 1]);
    }
  }

  /** The entries of `s` with balance `b`, in order. */
  function WithBalance(s: seq<Entry>, b: int): seq<Entry>
    decreases |s|
  {
    if s == [] then [] else WithBalance(s[..|s| - 1], b) + (if s[|s| - 1].balance == b then [s[|s| - 1]] else [])
  }

  lemma {:induction false} WithBalanceConcat(a: seq<Entry>, c: seq<Entry>, b: int)
    ensures WithBalance(a + c, b) == WithBalance(a, b) + WithBalance(c, b)
    decreases |c|
  {
    if c == [] {
      assert a + c == a;
    } else {
      assert (a + c)[..|a + c| - 1] == a + c[..|c| - 1];
      WithBalanceConcat(a, c[..|c| - 1], b);
    }
  }

  lemma {:induction false} WithBalanceSingle(x: Entry, b: int)
    ensures WithBalance([x], b) == if x.balance == b then [x] else []
  {
    assert [x][..0] == [];
  }

  /** Below `x`'s balance there is nothing of balance `b >= x.balance` left
      in a sorted sequence. */
  lemma {:induction false} WithBalanceBelow(s: seq<Entry>, b: int, bound: int)
    requires forall i :: 0 <= i < |s| ==> s[i].balance < bound
    requires b >= bound
    ensures WithBalance(s, b) == []
    decreases |s|
  {
    if s != [] {
      WithBalanceBelow(s[..|s| - 1], b, bound);
    }
  }

  /** Inserting `x` in front of a sorted sequence of smaller balances. */
  lemma InsertFront(s: seq<Entry>, x: Entry, b: int)
    requires SortedDesc(s) && s != [] && s[0].balance < x.balance
    ensures WithBalance([x] + s, b) == WithBalance(s, b) + (if x.balance == b then [x] else [])
  {
    WithBalanceConcat([x], s, b);
    WithBalanceSingle(x, b);
    if x.balance == b {
      WithBalanceBelow(s, b, x.balance);
    }
  }

  /** Keeping `s[0]` in front and inserting into the rest. */
  lemma InsertBehind(s: seq<Entry>, rest: seq<Entry>, x: Entry, b: int)
    requires s != []
    requires WithBalance(rest, b) == WithBalance(s[1..], b) + (if x.balance == b then [x] else [])
    ensures WithBalance([s[0]] + rest, b) == WithBalance(s, b) + (if x.balance == b then [x] else [])
  {
    WithBalanceConcat([s[0]], rest, b);
    WithBalanceConcat([s[0]], s[1..], b);
    assert [s[0]] + s[1..] == s;
  }

  lemma {:induction false} WithBalanceInsert(s: seq<Entry>, x: Entry, b: int)
    requires SortedDesc(s)
    ensures WithBalance(Insert(s, x), b) == WithBalance(s, b) + (if x.balance == b then [x] else [])
    decreases |s|
  {
    if s == [] {
      WithBalanceSingle(x, b);
    } else if s[0].balance >= x.balance {
      WithBalanceInsert(s[1..], x, b);
      InsertBehind(s, Insert(s[1..], x), x, b);
    } else {
      InsertFront(s, x, b);
    }
  }

  /** Stability: for every balance, the entries with that balance come out of
      the sort in the order they went in. */
  lemma {:induction false} SortByBalanceStable(es: seq<Entry>, b: int)
    ensures WithBalance(SortByBalance(es), b) == WithBalance(es, b)
    decreases |es|
  {
    if es != [] {
      var init := es[..|es| - 1];
      SortByBalanceStable(init, b);
      SortByBalanceSorted(init);
      WithBalanceInsert(SortByBalance(init), es[|es| - 1], b);
    }
  }

  /** `.slice(0, limit)`: a negative limit counts back from the end. */
  function SliceEnd(n: nat, limit: int): (k: nat)
    ensures k <= n
    ensures limit >= 0 ==> k == if limit < n then limit else n
    ensures limit < 0 ==> k == if n + limit < 0 then 0 else n + limit
  {
    if limit >= 0 then (if limit < n then limit else n)
    else if n + limit < 0 then 0 else n + limit
  }

  /** `getLeaderboard(limit)` over the store's entries, in the store's order. */
  function Leaderboard(entries: seq<Entry>, limit: int := 10): (top: seq<Entry>)
    ensures |top| == SliceEnd(|entries|, limit)
    ensures top == SortByBalance(entries)[..|top|]
  {
    var sorted := SortByBalance(entries);
    sorted[..SliceEnd(|sorted|, limit)]
  }

  lemma LeaderboardSorted(entries: seq<Entry>, limit: int)
    ensures SortedDesc(Leaderboard(entries, limit))
  {
    SortByBalanceSorted(entries);
  }

  /** The leaderboard lists at most `limit` entries, highest balance first,
      each of them a stored entry, and nobody left off has more than anybody
      listed. */
  lemma LeaderboardTop(entries: seq<Entry>, limit: int)
    ensures var top := Leaderboard(entries, limit);
            && (limit >= 0 ==> |top| <= limit)
            && SortedDesc(top)
            && multiset(top) <= multiset(entries)
            && forall e, i :: e in multiset(entries) - multiset(top) && 0 <= i < |top| ==> e.balance <= top[i].balance
  {
    SortByBalanceSorted(entries);
    SortedPrefix(SortByBalance(entries), Leaderboard(entries, limit));
  }

  /** A prefix of a sorted sequence is sorted, and nothing outside it is
      higher than anything in it. */
  lemma SortedPrefix(sorted: seq<Entry>, top: seq<Entry>)
    requires SortedDesc(sorted) && |top| <= |sorted| && top == sorted[..|top|]
    ensures SortedDesc(top)
    ensures multiset(top) <= multiset(sorted)
    ensures forall e, i :: e in multiset(sorted) - multiset(top) && 0 <= i < |top| ==> e.balance <= top[i].balance
  {
    var k := |top|;
    assert sorted == top + sorted[k..];
    assert multiset(sorted) == multiset(top) + multiset(sorted[k..]);
    forall e | e in multiset(sorted) - multiset(top)
      ensures forall i :: 0 <= i < |top| ==> e.balance <= top[i].balance
    {
      RestBelowPrefix(sorted, k, e);
    }
  }

  /** An entry after position `k` of a sorted sequence is no higher than any before it. */
  lemma RestBelowPrefix(sorted: seq<Entry>, k: nat, e: Entry)
    requires SortedDesc(sorted) && k <= |sorted| && e in multiset(sorted[k..])
    ensures forall i :: 0 <= i < k ==> e.balance <= sorted[..k][i].balance
  {
    var j :| 0 <= j < |sorted[k..]| && sorted[k..][j] == e;
    assert sorted[k + j] == e;
  }

  /** The store's entries as `{ userId, balance }`, in store order. */
  function EntriesOf(users: map<UserId, UserData>, order: seq<UserId>): (es: seq<Entry>)
    requires forall i :: 0 <= i < |order| ==> order[i] in users
    ensures |es| == |order|
    ensures forall i :: 0 <= i < |es| ==> es[i] == Entry(order[i], users[order[i]].balance)
    decreases |order|
  {
    if order == [] then [] else [Entry(order[0], users[order[0]].balance)] + EntriesOf(users, order[1..])
  }

  /** Every leaderboard line is a stored user with their stored balance. */
  lemma LeaderboardFromStore(users: map<UserId, UserData>, order: seq<UserId>, limit: int)
    requires forall i :: 0 <= i < |order| ==> order[i] in users
    ensures forall e :: e in Leaderboard(EntriesOf(users, order), limit) ==> e.userId in users && e.balance == users[e.userId].balance
  {
    var es := EntriesOf(users, order);
    var top := Leaderboard(es, limit);
    LeaderboardTop(es, limit);
    forall e | e in top ensures e.userId in users && e.balance == users[e.userId].balance {
      assert e in multiset(es);
      var j :| 0 <= j < |es| && es[j] == e;
    }
  }

  /** The `economyStore` file store and the in-memory `gamblingCooldowns` map. */
  class Ledger {
    var users: map<UserId, UserData>
    /** The order in which users were first saved, which is the order of
        `economyStore.entries()`. */
    var order: seq<UserId>
    var gamblingCooldowns: map<UserId, int>

    ghost predicate Valid()
      reads this
    {
      && (forall i, j :: 0 <= i < j < |order| ==> order[i] != order[j])
      && (forall u :: u in users <==> u in order)
    }

    constructor ()
      ensures Valid() && users == map[] && order == [] && gamblingCooldowns == map[]
    {
      users := map[];
      order := [];
      gamblingCooldowns := map[];
    }

    /** `getUserData(userId)`. */
    function GetUserData(u: UserId): (d: UserData)
      reads this
      ensures u !in users ==> d == NEW_USER
      ensures u in users ==> d == users[u]
    {
      if u in users then users[u] else NEW_USER
    }

    /** `saveUserData(userId, data)`: a new key goes last in the store. */
    method Save(u: UserId, d: UserData)
      requires Valid()
      modifies this
      ensures Valid()
      ensures users == old(users)[u := d]
      ensures order == if u in old(users) then old(order) else old(order) + [u]
      ensures gamblingCooldowns == old(gamblingCooldowns)
    {
      if u !in users {
        order := order + [u];
      }
      users := users[u := d];
    }

    /** `addBalance(userId, amount)`. */
    method AddBalance(u: UserId, amount: int) returns (b: int)
      requires Valid()
      modifies this
      ensures Valid()
      ensures b == Clamped(old(GetUserData(u)).balance, amount)
      ensures users == old(users)[u := UserData(b, old(GetUserData(u)).lastHourly)]
      ensures order == if u in old(users) then old(order) else old(order) + [u]
      ensures users.Keys == old(users).Keys + {u}
      ensures gamblingCooldowns == old(gamblingCooldowns)
    {
      var data := GetUserData(u);
      data := data.(balance := Clamped(data.balance, amount));
      Save(u, data);
      b := data.balance;
    }

    /** `removeBalance(userId, amount)`, which is `addBalance(userId, -amount)`. */
    method RemoveBalance(u: UserId, amount: int) returns (b: int)
      requires Valid()
      modifies this
      ensures Valid()
      ensures b == Clamped(old(GetUserData(u)).balance, -amount)
      ensures users == old(users)[u := UserData(b, old(GetUserData(u)).lastHourly)]
      ensures order == if u in old(users) then old(order) else old(order) + [u]
      ensures users.Keys == old(users).Keys + {u}
      ensures gamblingCooldowns == old(gamblingCooldowns)
    {
      b := AddBalance(u, -amount);
    }

    /** `hasBalance(userId, amount)`: a user with no record holds 0, so
        covers only amounts up to 0. */
    predicate HasBalance(u: UserId, amount: int): (covered: bool)
      reads this
      ensures u in users ==> (covered <==> users[u].balance >= amount)
      ensures u !in users ==> (covered <==> amount <= 0)
    {
      GetUserData(u).balance >= amount
    }

    /** `checkGamblingCooldown(userId)` at time `now`: the time is recorded
        only when the cooldown has passed. */
    method CheckGamblingCooldown(u: UserId, now: int) returns (c: Cooldown)
      requires Valid()
      modifies this
      ensures Valid() && users == old(users) && order == old(order)
      ensures var last := if u in old(gamblingCooldowns) then old(gamblingCooldowns)[u] else 0;
              && (GAMBLING_COOLDOWN - (now - last) > 0 ==>
                    c == OnCooldown(GAMBLING_COOLDOWN - (now - last)) && gamblingCooldowns == old(gamblingCooldowns))
              && (GAMBLING_COOLDOWN - (now - last) <= 0 ==>
                    c == Ready && gamblingCooldowns == old(gamblingCooldowns)[u := now])
    {
      var lastGamble := if u in gamblingCooldowns then gamblingCooldowns[u] else 0;
      var remaining := GAMBLING_COOLDOWN - (now - lastGamble);
      if remaining > 0 {
        return OnCooldown(remaining);
      }
      gamblingCooldowns := gamblingCooldowns[u := now];
      c := Ready;
    }

    /** `claimHourly(userId)` at time `now`, with `r` the `Math.random()` draw. */
    method ClaimHourly(u: UserId, now: int, r: real) returns (h: Hourly)
      requires Valid() && 0.0 <= r < 1.0
      modifies this
      ensures Valid() && gamblingCooldowns == old(gamblingCooldowns)
      ensures var d := old(GetUserData(u));
              && (now - d.lastHourly < HOURLY_COOLDOWN ==>
                    h == HourlyOnCooldown(HOURLY_COOLDOWN - (now - d.lastHourly))
                    && users == old(users) && order == old(order))
              && (now - d.lastHourly >= HOURLY_COOLDOWN ==>
                    h == Claimed(HourlyReward(r), d.balance + HourlyReward(r))
                    && users == old(users)[u := UserData(d.balance + HourlyReward(r), now)]
                    && order == (if u in old(users) then old(order) else old(order) + [u]))
    {
      var data := GetUserData(u);
      var timeSinceLastClaim := now - data.lastHourly;
      if timeSinceLastClaim < HOURLY_COOLDOWN {
        return HourlyOnCooldown(HOURLY_COOLDOWN - timeSinceLastClaim);
      }
      var reward := HourlyReward(r);
      data := UserData(data.balance + reward, now);
      Save(u, data);
      h := Claimed(reward, data.balance);
    }

    /** `getLeaderboard(limit)`. */
    function GetLeaderboard(limit: int := 10): (top: seq<Entry>)
      reads this
      requires Valid()
      ensures limit >= 0 ==> |top| <= limit
      ensures SortedDesc(top)
      ensures forall e :: e in top ==> e.userId in users && e.balance == users[e.userId].balance
    {
      assert forall i :: 0 <= i < |order| ==> order[i] in users by {
        forall i | 0 <= i < |order| ensures order[i] in users {
          assert order[i] in order;
        }
      }
      LeaderboardSorted(EntriesOf(users, order), limit);
      LeaderboardFromStore(users, order, limit);
      Leaderboard(EntriesOf(users, order), limit)
    }
  }

  /** Balances written through `addBalance` are never negative, so a ledger
      that starts empty and is only changed by it never holds a negative
      balance. */
  lemma AddBalanceKeepsNonNegative(users: map<UserId, UserData>, u: UserId, amount: int)
    requires forall v :: v in users ==> users[v].balance >= 0
    ensures var d := if u in users then users[u] else NEW_USER;
            var after := users[u := UserData(Clamped(d.balance, amount), d.lastHourly)];
            forall v :: v in after ==> after[v].balance >= 0
  {
  }
}
