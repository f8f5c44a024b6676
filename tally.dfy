/** Vote rows, the per-battle counts and the results payload (backend/server.py). */
module Tally {
  import opened Common

  /** A row of the votes table. `choice` is whatever the client sent: vote_battle does not validate it. */
  datatype VoteRow = VoteRow(battle: BattleId, user: UserId, choice: string, createdAt: int)

  /** The lookup vote_battle runs before inserting: a row for (battle, user) exists. */
  predicate HasVoted(votes: seq<VoteRow>, id: BattleId, uid: UserId): (r: bool)
    ensures r <==> uid in Voters(votes, id)
  {
    exists i :: 0 <= i < |votes| && votes[i].battle == id && votes[i].user == uid
  }

  /** No two rows share a (battle, user) pair. */
  predicate OneVotePerUser(votes: seq<VoteRow>)
  {
    forall i, j :: 0 <= i < j < |votes| ==> votes[i].battle != votes[j].battle || votes[i].user != votes[j].user
  }

  /** Number of rows for battle `id`. */
  function CountVotes(votes: seq<VoteRow>, id: BattleId): (r: nat)
    ensures r <= |votes|
  {
    if |votes| == 0 then 0
    else CountVotes(votes[..|votes| - 1], id) + (if votes[|votes| - 1].battle == id then 1 else 0)
  }

  /** Number of rows for battle `id` whose choice is `c`. */
  function CountChoice(votes: seq<VoteRow>, id: BattleId, c: string): (r: nat)
    ensures r <= CountVotes(votes, id)
  {
    if |votes| == 0 then 0
    else CountChoice(votes[..|votes| - 1], id, c) + (if votes[|votes| - 1].battle == id && votes[|votes| - 1].choice == c then 1 else 0)
  }

  /** The users who voted on battle `id`. */
  function Voters(votes: seq<VoteRow>, id: BattleId): set<UserId>
  {
    set i | 0 <= i < |votes| && votes[i].battle == id :: votes[i].user
  }

  /** Appending one row moves each count by one exactly where the row matches. */
  lemma CountsAppend(votes: seq<VoteRow>, row: VoteRow, id: BattleId, c: string)
    ensures CountVotes(votes + [row], id) == CountVotes(votes, id) + (if row.battle == id then 1 else 0)
    ensures CountChoice(votes + [row], id, c) == CountChoice(votes, id, c) + (if row.battle == id && row.choice == c then 1 else 0)
  {
    assert (votes + [row])[..|votes|] == votes;
  }

  /** A battle nobody voted on has every count at zero. */
  lemma {:induction false} NoRowsNoCounts(votes: seq<VoteRow>, id: BattleId, c: string)
    requires forall v :: v in votes ==> v.battle != id
    ensures CountVotes(votes, id) == 0 && CountChoice(votes, id, c) == 0
  {
    if |votes| > 0 {
      NoRowsNoCounts(votes[..|votes| - 1], id, c);
    }
  }

  /** Votes for A and for B never outnumber all votes; they make them up when every choice is A or B. */
  lemma {:induction false} ChoicesWithinTotal(votes: seq<VoteRow>, id: BattleId)
    ensures CountChoice(votes, id, "A") + CountChoice(votes, id, "B") <= CountVotes(votes, id)
    ensures (forall v :: v in votes && v.battle == id ==> v.choice in {"A", "B"})
            ==> CountChoice(votes, id, "A") + CountChoice(votes, id, "B") == CountVotes(votes, id)
  {
    if |votes| > 0 {
      var init := votes[..|votes| - 1];
      ChoicesWithinTotal(init, id);
      assert forall v :: v in init ==> v in votes;
    }
  }

  /** The voters of a sequence with one more row: that row's user joins when the row is for `id`. */
  lemma VotersAppend(votes: seq<VoteRow>, id: BattleId)
    requires |votes| > 0
    ensures var last := votes[|votes| - 1];
            Voters(votes, id) == Voters(votes[..|votes| - 1], id) + (if last.battle == id then {last.user} else {})
  {
    var n := |votes| - 1;
    forall u | u in Voters(votes, id) ensures u in Voters(votes[..n], id) || (votes[n].battle == id && u == votes[n].user) {
      var i :| 0 <= i < |votes| && votes[i].battle == id && votes[i].user == u;
      if i < n {
        assert votes[..n][i] == votes[i];
      }
    }
    forall u | u in Voters(votes[..n], id) ensures u in Voters(votes, id) {
      var i :| 0 <= i < n && votes[..n][i].battle == id && votes[..n][i].user == u;
      assert votes[i] == votes[..n][i];
    }
  }

  /** With one vote per user, the total is the number of distinct voters. */
  lemma {:induction false} TotalIsDistinctVoters(votes: seq<VoteRow>, id: BattleId)
    requires OneVotePerUser(votes)
    ensures CountVotes(votes, id) == |Voters(votes, id)|
  {
    if |votes| > 0 {
      var n := |votes| - 1;
      var init := votes[..n];
      assert OneVotePerUser(init);
      TotalIsDistinctVoters(init, id);
      VotersAppend(votes, id);
      assert votes[n].battle == id ==> votes[n].user !in Voters(init, id);
    }
  }

  /** The body of GET /battles/{id}/results; percentages are exact, without the rounding to one decimal. */
  datatype BattleResults = BattleResults(
    battleId: BattleId,
    totalVotes: nat,
    optionAVotes: nat,
    optionBVotes: nat,
    optionAPercentage: real,
    optionBPercentage: real)

  /** A share of the total as a percentage, 0 when nobody voted. */
  function Percentage(count: nat, total: nat): (r: real)
    ensures total > 0 ==> r * total as real == 100.0 * count as real
    ensures total == 0 ==> r == 0.0
    ensures count <= total ==> 0.0 <= r <= 100.0
  {
    if total > 0 then
      var share := count as real / total as real;
      assert share * total as real == count as real;
      share * 100.0
    else 0.0
  }

  lemma SharesAdd(a: nat, b: nat, t: nat)
    requires t > 0 && a + b == t
    ensures Percentage(a, t) + Percentage(b, t) == 100.0
  {
    var x := a as real / t as real;
    var y := b as real / t as real;
    assert x + y == (a as real + b as real) / t as real;
    assert (a as real + b as real) / t as real == 1.0;
    assert x * 100.0 + y * 100.0 == (x + y) * 100.0;
  }

  /** get_battle_results_internal over the votes of one battle. */
  function Results(votes: seq<VoteRow>, id: BattleId): (r: BattleResults)
    ensures r.battleId == id && r.totalVotes == CountVotes(votes, id)
    ensures r.optionAVotes == CountChoice(votes, id, "A") && r.optionBVotes == CountChoice(votes, id, "B")
    ensures r.optionAVotes + r.optionBVotes <= r.totalVotes
    ensures r.optionAPercentage == Percentage(r.optionAVotes, r.totalVotes)
    ensures r.optionBPercentage == Percentage(r.optionBVotes, r.totalVotes)
    ensures r.totalVotes == 0 ==> r.optionAPercentage == 0.0 && r.optionBPercentage == 0.0
    ensures 0.0 <= r.optionAPercentage <= 100.0 && 0.0 <= r.optionBPercentage <= 100.0
  {
    ChoicesWithinTotal(votes, id);
    var total := CountVotes(votes, id);
    var a := CountChoice(votes, id, "A");
    var b := CountChoice(votes, id, "B");
    BattleResults(id, total, a, b, Percentage(a, total), Percentage(b, total))
  }

  /** When every choice is A or B and someone voted, the two percentages add up to 100. */
  lemma PercentagesComplete(votes: seq<VoteRow>, id: BattleId)
    requires CountVotes(votes, id) > 0
    requires forall v :: v in votes && v.battle == id ==> v.choice in {"A", "B"}
    ensures Results(votes, id).optionAPercentage + Results(votes, id).optionBPercentage == 100.0
  {
    ChoicesWithinTotal(votes, id);
    SharesAdd(CountChoice(votes, id, "A"), CountChoice(votes, id, "B"), CountVotes(votes, id));
  }

  /** Three votes for A and one for B give 75 and 25 per cent. */
  lemma ThreeToOne(id: BattleId)
    ensures var votes := [VoteRow(id, "u1", "A", 0), VoteRow(id, "u2", "A", 0), VoteRow(id, "u3", "B", 0), VoteRow(id, "u4", "A", 0)];
            Results(votes, id) == BattleResults(id, 4, 3, 1, 75.0, 25.0)
  {
    var votes := [VoteRow(id, "u1", "A", 0), VoteRow(id, "u2", "A", 0), VoteRow(id, "u3", "B", 0), VoteRow(id, "u4", "A", 0)];
    ThreeToOneCounts(id, votes);
    QuarterShares();
  }

  lemma ThreeToOneCounts(id: BattleId, votes: seq<VoteRow>)
    requires votes == [VoteRow(id, "u1", "A", 0), VoteRow(id, "u2", "A", 0), VoteRow(id, "u3", "B", 0), VoteRow(id, "u4", "A", 0)]
    ensures CountVotes(votes, id) == 4 && CountChoice(votes, id, "A") == 3 && CountChoice(votes, id, "B") == 1
  {
    var v1 := [VoteRow(id, "u1", "A", 0)];
    var v2 := v1 + [VoteRow(id, "u2", "A", 0)];
    var v3 := v2 + [VoteRow(id, "u3", "B", 0)];
    assert [] + v1 == v1 && votes == v3 + [VoteRow(id, "u4", "A", 0)];
    CountsAppend([], v1[0], id, "A");
    CountsAppend([], v1[0], id, "B");
    assert CountVotes(v1, id) == 1 && CountChoice(v1, id, "A") == 1 && CountChoice(v1, id, "B") == 0;
    CountsAppend(v1, VoteRow(id, "u2", "A", 0), id, "A");
    CountsAppend(v1, VoteRow(id, "u2", "A", 0), id, "B");
    assert CountVotes(v2, id) == 2 && CountChoice(v2, id, "A") == 2 && CountChoice(v2, id, "B") == 0;
    CountsAppend(v2, VoteRow(id, "u3", "B", 0), id, "A");
    CountsAppend(v2, VoteRow(id, "u3", "B", 0), id, "B");
    assert CountVotes(v3, id) == 3 && CountChoice(v3, id, "A") == 2 && CountChoice(v3, id, "B") == 1;
    CountsAppend(v3, VoteRow(id, "u4", "A", 0), id, "A");
    CountsAppend(v3, VoteRow(id, "u4", "A", 0), id, "B");
  }

  lemma QuarterShares()
    ensures Percentage(3, 4) == 75.0 && Percentage(1, 4) == 25.0
  {
  }

  /** vote_counts.get(choice, 0). */
  function VoteCount(counts: map<string, int>, c: string): int
  {
    if c in counts then counts[c] else 0
  }

  /** The in-place increment of vote_battle: one more for `c`, every other choice untouched. */
  function Increment(counts: map<string, int>, c: string): (r: map<string, int>)
    ensures VoteCount(r, c) == VoteCount(counts, c) + 1
    ensures forall d :: d != c ==> VoteCount(r, d) == VoteCount(counts, d)
    ensures r.Keys == counts.Keys + {c}
  {
    counts[c := VoteCount(counts, c) + 1]
  }
}
