/** The skip-vote tally: for every guild, the set of users who voted since
    the votes were last reset. */
module VoteManager {
  type GuildId = string
  type UserId = string

  /** `votes.get(guildId) ?? new Set()`. */
  function VotersOf(votes: map<GuildId, set<UserId>>, g: GuildId): set<UserId> {
    if g in votes then votes[g] else {}
  }

  /** The tally after `registerVote(g, u)`: `u` joins the guild's set. */
  function Registered(votes: map<GuildId, set<UserId>>, g: GuildId, u: UserId): (after: map<GuildId, set<UserId>>)
    ensures after.Keys == votes.Keys + {g}
    ensures VotersOf(after, g) == VotersOf(votes, g) + {u}
    ensures forall h :: h != g ==> VotersOf(after, h) == VotersOf(votes, h)
  {
    votes[g := VotersOf(votes, g) + {u}]
  }

  /** The tally after a run of `registerVote(g, u)` calls, one per element of `us`. */
  function RegisteredAll(votes: map<GuildId, set<UserId>>, g: GuildId, us: seq<UserId>): map<GuildId, set<UserId>>
    decreases |us|
  {
    if |us| == 0 then votes else RegisteredAll(Registered(votes, g, us[0]), g, us[1..])
  }

  /** The distinct users in a sequence of voters. */
  function Distinct(us: seq<UserId>): set<UserId> {
    set i | 0 <= i < |us| :: us[i]
  }

  /** After a reset, the guild's tally is exactly the distinct users who voted
      since, and no other guild's tally moves. */
  lemma {:induction false} RegisteredAllCountsDistinct(votes: map<GuildId, set<UserId>>, g: GuildId, us: seq<UserId>)
    ensures VotersOf(RegisteredAll(votes, g, us), g) == VotersOf(votes, g) + Distinct(us)
    ensures forall h :: h != g ==> VotersOf(RegisteredAll(votes, g, us), h) == VotersOf(votes, h)
    decreases |us|
  {
    if |us| > 0 {
      RegisteredAllCountsDistinct(Registered(votes, g, us[0]), g, us[1..]);
      assert Distinct(us) == {us[0]} + Distinct(us[1..]) by {
        forall x | x in Distinct(us) ensures x in {us[0]} + Distinct(us[1..]) {
          var i :| 0 <= i < |us| && us[i] == x;
          if i > 0 { assert us[1..][i - 1] == x; }
        }
        forall x | x in Distinct(us[1..]) ensures x in Distinct(us) {
          var i :| 0 <= i < |us[1..]| && us[1..][i] == x;
          assert us[i + 1] == x;
        }
      }
    } else {
      assert Distinct(us) == {};
    }
  }

  /** Counting from a reset: the number `registerVote` reports is the number of
      distinct voters. */
  lemma CountSinceReset(votes: map<GuildId, set<UserId>>, g: GuildId, us: seq<UserId>)
    ensures |VotersOf(RegisteredAll(votes - {g}, g, us), g)| == |Distinct(us)|
  {
    RegisteredAllCountsDistinct(votes - {g}, g, us);
    assert VotersOf(votes - {g}, g) == {};
  }

  /** A second vote by the same user changes nothing. */
  lemma RegisterTwice(votes: map<GuildId, set<UserId>>, g: GuildId, u: UserId)
    ensures Registered(Registered(votes, g, u), g, u) == Registered(votes, g, u)
  {
  }

  /** The first vote after a reset is counted as one. */
  lemma FirstVoteAfterReset(votes: map<GuildId, set<UserId>>, g: GuildId, u: UserId)
    ensures |VotersOf(Registered(votes - {g}, g, u), g)| == 1
  {
    assert VotersOf(votes - {g}, g) == {};
    assert VotersOf(Registered(votes - {g}, g, u), g) == {u};
  }

  /** The module-level `votes` map. */
  class Tally {
    var votes: map<GuildId, set<UserId>>

    constructor ()
      ensures votes == map[]
    {
      votes := map[];
    }

    /** `resetVotes(guildId)`: the guild's entry is removed. */
    method ResetVotes(g: GuildId)
      modifies this
      ensures votes == old(votes) - {g}
      ensures VotersOf(votes, g) == {}
      ensures forall h :: h != g ==> VotersOf(votes, h) == VotersOf(old(votes), h)
    {
      votes := votes - {g};
    }

    /** `registerVote(guildId, userId)`: the user joins the guild's set, and
        the size of that set is returned. */
    method RegisterVote(g: GuildId, u: UserId) returns (count: nat)
      modifies this
      ensures votes == Registered(old(votes), g, u)
      ensures count == |VotersOf(votes, g)|
      ensures u in VotersOf(old(votes), g) ==> count == |VotersOf(old(votes), g)|
      ensures u !in VotersOf(old(votes), g) ==> count == |VotersOf(old(votes), g)| + 1
    {
      var current := if g in votes then votes[g] else {};
      current := current + {u};
      votes := votes[g := current];
      count := |current|;
    }

    /** `getVotes(guildId)`: a guild with no votes reads as the empty set,
        and no entry is created for it. */
    function GetVotes(g: GuildId): (voters: set<UserId>)
      reads this
      ensures g !in votes ==> voters == {}
      ensures g in votes ==> voters == votes[g]
    {
      VotersOf(votes, g)
    }
  }
}
