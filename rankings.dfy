/**
 * The ranking pipeline of `fetchAgents` in src/hooks/useRankings.ts: the
 * fetched agent rows become ranking entries, are sorted stably by
 * descending follower count and numbered 1..N, and then one area ranking
 * is built per city of the fixed city list.
 *
 * The follower count is a function supplied by the caller; the rows and
 * the client list are the results of the backend queries.
 */
module Rankings {
  import opened Wrappers
  import opened Seqs

  /** A row of the `agent_profiles` query; `areas` may be null. */
  datatype AgentRow = AgentRow(userId: string, name: string, photoUrl: string, areas: Option<seq<string>>)

  datatype AgentRanking = AgentRanking(
    agentId: string,
    name: string,
    photo: string,
    username: string,
    areas: seq<string>,
    followerCount: int,
    rank: int)

  datatype Client = Client(id: string, areasOfInterest: seq<string>)

  datatype AreaRanking = AreaRanking(area: string, agents: seq<AgentRanking>, agentCount: int, clientCount: int)

  const AreaListSize := 10

  /** `agent${user_id.slice(0, 8)}`. */
  function Username(userId: string): (u: string)
    ensures |u| == 5 + (if |userId| < 8 then |userId| else 8)
    ensures u[..5] == "agent" && u[5..] == Take(userId, 8)
  {
    "agent" + Take(userId, 8)
  }

  /** The first `map`: one entry per row, in fetched order, numbered by fetched position. */
  function Candidates(rows: seq<AgentRow>, followers: string -> int): (r: seq<AgentRanking>)
    ensures |r| == |rows|
    ensures forall i :: 0 <= i < |r| ==>
              r[i].agentId == rows[i].userId && r[i].name == rows[i].name && r[i].photo == rows[i].photoUrl &&
              r[i].username == Username(rows[i].userId) && r[i].areas == rows[i].areas.GetOr([]) &&
              r[i].followerCount == followers(rows[i].userId) && r[i].rank == i + 1
  {
    seq(|rows|, i requires 0 <= i < |rows| =>
      AgentRanking(rows[i].userId, rows[i].name, rows[i].photoUrl, Username(rows[i].userId),
                   rows[i].areas.GetOr([]), followers(rows[i].userId), i + 1))
  }

  // ---- The stable sort by descending follower count ----

  /** Non-increasing follower counts. */
  predicate SortedByFollowers(s: seq<AgentRanking>) {
    forall i, j :: 0 <= i < j < |s| ==> s[i].followerCount >= s[j].followerCount
  }

  /** Inserts `x` before the first entry whose count does not exceed its own. */
  function Insert(x: AgentRanking, s: seq<AgentRanking>): (r: seq<AgentRanking>)
    ensures |r| == |s| + 1
  {
    if s == [] || s[0].followerCount <= x.followerCount then [x] + s else [s[0]] + Insert(x, s[1..])
  }

  /**
   * `sort((a, b) => b.followerCount - a.followerCount)`. The comparator only
   * fixes the result up to ties; `Array.prototype.sort` is stable, so ties
   * keep their input order, which is what this insertion sort does.
   */
  function SortByFollowers(s: seq<AgentRanking>): (r: seq<AgentRanking>)
    ensures |r| == |s|
  {
    if s == [] then [] else Insert(s[0], SortByFollowers(s[1..]))
  }

  /** The entries before `x`'s position have strictly more followers; `x` is followed by the rest. */
  lemma {:induction false} InsertSplit(x: AgentRanking, s: seq<AgentRanking>) returns (p: nat)
    ensures p <= |s|
    ensures Insert(x, s) == s[..p] + [x] + s[p..]
    ensures forall i :: 0 <= i < p ==> s[i].followerCount > x.followerCount
    ensures p < |s| ==> s[p].followerCount <= x.followerCount
    decreases |s|
  {
    if s == [] || s[0].followerCount <= x.followerCount {
      p := 0;
    } else {
      var t := s[1..];
      var q := InsertSplit(x, t);
      p := q + 1;
      assert Insert(x, s) == [s[0]] + Insert(x, t);
      assert t[..q] == s[1..p] && t[q..] == s[p..];
      assert [s[0]] + s[1..p] == s[..p];
      forall i | 0 <= i < p ensures s[i].followerCount > x.followerCount {
        if i > 0 {
          assert s[i] == t[i - 1];
        }
      }
      if p < |s| {
        assert s[p] == t[q];
      }
    }
  }

  lemma InsertPermutes(x: AgentRanking, s: seq<AgentRanking>)
    ensures multiset(Insert(x, s)) == multiset(s) + multiset{x}
  {
    var p := InsertSplit(x, s);
    MultisetAround(s[..p], x, s[p..]);
    assert s == s[..p] + s[p..];
  }

  /** The sort only reorders: the result is a permutation of its input. */
  lemma {:induction false} SortPermutes(s: seq<AgentRanking>)
    ensures multiset(SortByFollowers(s)) == multiset(s)
  {
    if s != [] {
      SortPermutes(s[1..]);
      InsertPermutes(s[0], SortByFollowers(s[1..]));
      assert s == [s[0]] + s[1..];
    }
  }

  /** Where each entry of `s[..p] + [x] + s[p..]` comes from. */
  lemma InsertIndex(x: AgentRanking, s: seq<AgentRanking>, p: nat, i: int)
    requires p <= |s| && 0 <= i <= |s|
    ensures (s[..p] + [x] + s[p..])[i] == if i < p then s[i] else if i == p then x else s[i - 1]
  {
  }

  lemma InsertSorted(x: AgentRanking, s: seq<AgentRanking>)
    requires SortedByFollowers(s)
    ensures SortedByFollowers(Insert(x, s))
  {
    var p := InsertSplit(x, s);
    var r := Insert(x, s);
    forall i, j | 0 <= i < j < |r| ensures r[i].followerCount >= r[j].followerCount {
      InsertIndex(x, s, p, i);
      InsertIndex(x, s, p, j);
      if i == p && j - 1 > p {
        assert s[p].followerCount >= s[j - 1].followerCount;
      } else if i < p && j > p && i < j - 1 {
        assert s[i].followerCount >= s[j - 1].followerCount;
      } else if i > p {
        assert s[i - 1].followerCount >= s[j - 1].followerCount;
      } else if j < p {
        assert s[i].followerCount >= s[j].followerCount;
      }
    }
  }

  /** The sort's result is ordered by non-increasing follower count. */
  lemma {:induction false} SortSorted(s: seq<AgentRanking>)
    ensures SortedByFollowers(SortByFollowers(s))
  {
    if s != [] {
      SortSorted(s[1..]);
      InsertSorted(s[0], SortByFollowers(s[1..]));
    }
  }

  /** The entries with exactly `k` followers. */
  function HasCount(k: int): AgentRanking -> bool {
    (a: AgentRanking) => a.followerCount == k
  }

  lemma InsertStable(x: AgentRanking, s: seq<AgentRanking>, k: int)
    ensures Filter(Insert(x, s), HasCount(k)) == (if x.followerCount == k then [x] else []) + Filter(s, HasCount(k))
  {
    var p := InsertSplit(x, s);
    var front, back := s[..p], s[p..];
    assert s == front + back;
    forall i | 0 <= i < |front| ensures front[i].followerCount > x.followerCount {
      assert front[i] == s[i];
    }
    FilterToFront(front, x, back, HasCount(k));
  }

  /**
   * Stability: the entries with any one follower count appear in the sorted
   * list in exactly their input order.
   */
  lemma {:induction false} SortStable(s: seq<AgentRanking>, k: int)
    ensures Filter(SortByFollowers(s), HasCount(k)) == Filter(s, HasCount(k))
  {
    if s != [] {
      SortStable(s[1..], k);
      InsertStable(s[0], SortByFollowers(s[1..]), k);
    }
  }

  /** The second `map`: rank is position + 1. */
  function Rerank(s: seq<AgentRanking>): (r: seq<AgentRanking>)
    ensures |r| == |s|
    ensures forall i :: 0 <= i < |r| ==> r[i] == s[i].(rank := i + 1)
  {
    seq(|s|, i requires 0 <= i < |s| => s[i].(rank := i + 1))
  }

  /** `rankedAgents`, the `topAgents` of the hook. */
  function TopAgents(rows: seq<AgentRow>, followers: string -> int): seq<AgentRanking> {
    Rerank(SortByFollowers(Candidates(rows, followers)))
  }

  /**
   * The global list: one entry per fetched row, ranks exactly 1..N in order,
   * follower counts non-increasing, and it is a reordering of the candidates
   * in which equal counts keep their fetched order.
   */
  lemma TopAgentsRanked(rows: seq<AgentRow>, followers: string -> int, k: int)
    ensures var top := TopAgents(rows, followers);
            var sorted := SortByFollowers(Candidates(rows, followers));
            |top| == |rows| &&
            (forall i :: 0 <= i < |top| ==> top[i].rank == i + 1 && top[i] == sorted[i].(rank := i + 1)) &&
            SortedByFollowers(top) &&
            multiset(sorted) == multiset(Candidates(rows, followers)) &&
            Filter(sorted, HasCount(k)) == Filter(Candidates(rows, followers), HasCount(k))
  {
    var sorted := SortByFollowers(Candidates(rows, followers));
    SortSorted(Candidates(rows, followers));
    SortPermutes(Candidates(rows, followers));
    SortStable(Candidates(rows, followers), k);
    var top := TopAgents(rows, followers);
    assert forall i :: 0 <= i < |top| ==> top[i].followerCount == sorted[i].followerCount;
  }

  /** Three agents with 120, 120 and 80 followers keep their fetched order and get ranks 1, 2, 3. */
  lemma TieScenario()
    ensures var rows := [AgentRow("a", "A", "", None), AgentRow("b", "B", "", None), AgentRow("c", "C", "", None)];
            var followers := (id: string) => if id == "c" then 80 else 120;
            var top := TopAgents(rows, followers);
            |top| == 3 && top[0].agentId == "a" && top[1].agentId == "b" && top[2].agentId == "c" &&
            top[0].rank == 1 && top[1].rank == 2 && top[2].rank == 3
  {
    var rows := [AgentRow("a", "A", "", None), AgentRow("b", "B", "", None), AgentRow("c", "C", "", None)];
    var followers := (id: string) => if id == "c" then 80 else 120;
    var c := Candidates(rows, followers);
    var a0 := AgentRanking("a", "A", "", "agenta", [], 120, 1);
    var b0 := AgentRanking("b", "B", "", "agentb", [], 120, 2);
    var c0 := AgentRanking("c", "C", "", "agentc", [], 80, 3);
    assert Username("a") == "agenta" && Username("b") == "agentb" && Username("c") == "agentc";
    assert c[0] == a0 && c[1] == b0 && c[2] == c0;
    assert c == [a0, b0, c0];
    assert c[1..] == [b0, c0] && c[1..][1..] == [c0];
    assert SortByFollowers([c0]) == Insert(c0, []) == [c0];
    assert SortByFollowers([b0, c0]) == Insert(b0, [c0]) == [b0, c0];
    assert SortByFollowers(c) == Insert(a0, [b0, c0]) == [a0, b0, c0];
  }

  // ---- Area rankings ----

  /** `agent.areas.includes(area)`. */
  function InArea(area: string): AgentRanking -> bool {
    (a: AgentRanking) => area in a.areas
  }

  /** `client.areasOfInterest.includes(area)`. */
  function Interested(area: string): Client -> bool {
    (c: Client) => area in c.areasOfInterest
  }

  /** One entry of `BC_CITIES.map(...)`. */
  function AreaRankingOf(ranked: seq<AgentRanking>, area: string, clients: seq<Client>): (r: AreaRanking)
    ensures r.area == area
    ensures r.agents == Take(Filter(ranked, InArea(area)), AreaListSize)
    ensures r.agentCount == |Filter(ranked, InArea(area))| && r.clientCount == |Filter(clients, Interested(area))|
  {
    var areaAgents := Filter(ranked, InArea(area));
    AreaRanking(area, Take(areaAgents, AreaListSize), |areaAgents|, |Filter(clients, Interested(area))|)
  }

  /** `areaRankings`: one entry per city, in the city list's order, including cities without agents. */
  function AreaRankings(ranked: seq<AgentRanking>, cities: seq<string>, clients: seq<Client>): (r: seq<AreaRanking>)
    ensures |r| == |cities|
    ensures forall i :: 0 <= i < |r| ==> r[i] == AreaRankingOf(ranked, cities[i], clients)
  {
    Map(cities, (area: string) => AreaRankingOf(ranked, area, clients))
  }

  /**
   * An area's list is at most 10 entries, all serving the area, in the global
   * order, each with its global rank (the entries are those of the global
   * list, unchanged), and its agent count is at least the list's length.
   */
  lemma AreaRankingBounds(ranked: seq<AgentRanking>, area: string, clients: seq<Client>)
    ensures var r := AreaRankingOf(ranked, area, clients);
            |r.agents| <= AreaListSize && |r.agents| <= r.agentCount &&
            (r.agentCount <= AreaListSize ==> |r.agents| == r.agentCount) &&
            IsSubsequence(r.agents, ranked) &&
            (forall a :: a in r.agents ==> a in ranked && area in a.areas) &&
            r.clientCount <= |clients|
  {
    var all := Filter(ranked, InArea(area));
    var r := AreaRankingOf(ranked, area, clients);
    FilterIsSubsequence(ranked, InArea(area));
    FilterMembers(ranked, InArea(area));
    TakeIsSubsequence(all, AreaListSize);
    SubsequenceTransitive(r.agents, all, ranked);
    forall a | a in r.agents ensures a in ranked && area in a.areas {
      var i :| 0 <= i < |r.agents| && r.agents[i] == a;
      assert a in all;
    }
  }

  /** An area matched by no agent and no client has an empty list and zero counts. */
  lemma EmptyArea(ranked: seq<AgentRanking>, area: string, clients: seq<Client>)
    requires forall i :: 0 <= i < |ranked| ==> area !in ranked[i].areas
    requires forall i :: 0 <= i < |clients| ==> area !in clients[i].areasOfInterest
    ensures AreaRankingOf(ranked, area, clients) == AreaRanking(area, [], 0, 0)
  {
    FilterNone(ranked, InArea(area));
    FilterNone(clients, Interested(area));
  }
}
