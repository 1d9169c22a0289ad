/**
 * `build_network_data` of aggregations/network_graph.py: the matches left by the year,
 * tournament and round filters become a graph whose nodes are players (their wins,
 * matches, opponents, and per-surface and per-tournament counts) and whose edges are
 * pairs of players who met (keyed by the sorted pair, with who won where).
 */
module Network {
  import opened Wrappers
  import opened Matches
  import opened Ordering
  import opened Summaries
  import opened Enrich
  import HeadToHead

  /** The `year_filter` argument: none, a dictionary with optional inclusive bounds, or a scalar minimum. */
  datatype YearFilter = NoYearFilter | YearsBetween(lower: Option<int>, upper: Option<int>) | YearsFrom(from: int)

  predicate YearOk(e: Enriched, f: YearFilter)
  {
    match f
    case NoYearFilter => true
    case YearsBetween(lo, hi) => (lo.None? || e.year >= lo.value) && (hi.None? || e.year <= hi.value)
    case YearsFrom(lo) => e.year >= lo
  }

  /** `series.isin(xs)`: a missing cell is never in the list. */
  predicate IsIn(o: Option<string>, xs: seq<string>) { o.Some? && o.value in xs }

  /** A row the filters keep; an empty (or absent) tournament or round list keeps every row. */
  predicate Selected(e: Enriched, yf: YearFilter, tourneys: seq<string>, rounds: seq<string>)
  {
    YearOk(e, yf) && (|tourneys| == 0 || IsIn(e.row.tourneyName, tourneys)) && (|rounds| == 0 || IsIn(e.row.round, rounds))
  }

  function FilterRows(rows: seq<Enriched>, yf: YearFilter, tourneys: seq<string>, rounds: seq<string>): (r: seq<Enriched>)
    ensures |r| <= |rows|
    ensures forall e :: e in r <==> e in rows && Selected(e, yf, tourneys, rounds)
  {
    var byYear := Filter(rows, (e: Enriched) => YearOk(e, yf));
    var byTourney := if |tourneys| == 0 then byYear else Filter(byYear, (e: Enriched) => IsIn(e.row.tourneyName, tourneys));
    if |rounds| == 0 then byTourney else Filter(byTourney, (e: Enriched) => IsIn(e.row.round, rounds))
  }

  /** Without filters every row is kept, in order. */
  lemma UnfilteredKeepsAll(rows: seq<Enriched>)
    ensures FilterRows(rows, NoYearFilter, [], []) == rows
  {
    FilterAll(rows, (e: Enriched) => YearOk(e, NoYearFilter));
  }

  /**
   * A `defaultdict(int)` keyed by strings that is only ever incremented by one: it is
   * determined by the keys it was incremented under, in order.
   */
  type Counter = seq<string>

  const NoCounter: Counter := []

  /** `d[k]`. */
  function Get(c: Counter, k: string): nat
  {
    multiset(c)[k]
  }

  /** `sum(d.values())`. */
  function SumCounts(c: Counter): nat
  {
    |c|
  }

  /** `d[k] += 1`. */
  function Bump(c: Counter, k: string): (r: Counter)
    ensures forall j :: Get(r, j) == Get(c, j) + (if j == k then 1 else 0)
    ensures SumCounts(r) == SumCounts(c) + 1
  {
    c + [k]
  }

  /** The dictionary's keys, in the order they were first incremented. */
  function Keys(c: Counter): (ks: seq<string>)
    ensures forall k :: k in ks <==> k in c
    ensures forall i, j :: 0 <= i < j < |ks| ==> ks[i] != ks[j]
  {
    if |c| == 0 then []
    else
      var ks := Keys(c[..|c| - 1]);
      assert forall k :: k in c <==> k in c[..|c| - 1] || k == c[|c| - 1] by {
        assert c == c[..|c| - 1] + [c[|c| - 1]];
      }
      if c[|c| - 1] in ks then ks else ks + [c[|c| - 1]]
  }

  /** The dictionary as its items, in order. */
  function Items(c: Counter): (r: seq<(string, nat)>)
    ensures |r| == |Keys(c)|
    ensures forall i :: 0 <= i < |r| ==> r[i] == (Keys(c)[i], Get(c, Keys(c)[i])) && r[i].1 > 0
  {
    var ks := Keys(c);
    forall i | 0 <= i < |ks|
      ensures Get(c, ks[i]) > 0
    {
      assert ks[i] in ks;
      assert ks[i] in multiset(c);
    }
    seq(|ks|, i requires 0 <= i < |ks| => (ks[i], Get(c, ks[i])))
  }

  /** The career columns a node takes from the player metrics table. */
  datatype Career = Career(
    country: Option<string>, totalMatches: int, winPct: real, gsTitles: int,
    peakRanking: Option<int>, wasTop5: bool)

  /** The metrics row, its missing country replaced by the row's; zeros for an unknown player. */
  function CareerOf(metrics: map<string, Career>, name: string, rowCountry: Option<string>): Career
  {
    if name in metrics then
      var pm := metrics[name];
      pm.(country := if pm.country.Some? then pm.country else rowCountry)
    else Career(rowCountry, 0, 0.0, 0, None, false)
  }

  /** A node's counters over the filtered matches. */
  datatype Counts = Counts(
    won: nat, played: nat, top5Wins: nat, top5Matches: nat, opponents: set<string>,
    surfaceWins: Counter, surfaceMatches: Counter, tourneyWins: Counter, tourneyMatches: Counter)

  const NoCounts := Counts(0, 0, 0, 0, {}, NoCounter, NoCounter, NoCounter, NoCounter)

  /** Wins within matches, overall, against the top 5, per surface and per tournament. */
  ghost predicate CountsOk(c: Counts)
  {
    c.won <= c.played && c.top5Wins <= c.top5Matches
    && multiset(c.surfaceWins) <= multiset(c.surfaceMatches)
    && multiset(c.tourneyWins) <= multiset(c.tourneyMatches)
  }

  /** The winner's update. */
  function Won(c: Counts, surface: string, tourney: string, opponent: string, top5: bool): (r: Counts)
    ensures r.won == c.won + 1 && r.played == c.played + 1 && r.opponents == c.opponents + {opponent}
  {
    Counts(c.won + 1, c.played + 1, c.top5Wins + (if top5 then 1 else 0), c.top5Matches + (if top5 then 1 else 0),
           c.opponents + {opponent}, Bump(c.surfaceWins, surface), Bump(c.surfaceMatches, surface),
           Bump(c.tourneyWins, tourney), Bump(c.tourneyMatches, tourney))
  }

  /** The loser's update: a match, and a top-5 match when the winner was ranked within 5. */
  function Lost(c: Counts, surface: string, tourney: string, opponent: string, top5: bool): (r: Counts)
    ensures r.won == c.won && r.played == c.played + 1 && r.opponents == c.opponents + {opponent}
  {
    c.(played := c.played + 1, top5Matches := c.top5Matches + (if top5 then 1 else 0),
       opponents := c.opponents + {opponent},
       surfaceMatches := Bump(c.surfaceMatches, surface), tourneyMatches := Bump(c.tourneyMatches, tourney))
  }

  /** A win or a loss keeps every count of wins within the matching count of matches. */
  lemma CreditOk(c: Counts, surface: string, tourney: string, opponent: string, top5: bool)
    requires CountsOk(c)
    ensures CountsOk(Won(c, surface, tourney, opponent, top5)) && CountsOk(Lost(c, surface, tourney, opponent, top5))
  {
  }

  datatype Node = Node(career: Career, counts: Counts)

  /**
   * An edge between the two names of its key. `first*` are the source's `winner_wins_*`
   * (meetings the key's first name won) and `second*` its `loser_wins_*`.
   */
  datatype Edge = Edge(
    matches: nat, surfaceMatches: Counter, tourneyMatches: Counter,
    firstWinsBySurface: Counter, secondWinsBySurface: Counter,
    firstWinsByTourney: Counter, secondWinsByTourney: Counter)

  const NoEdge := Edge(0, NoCounter, NoCounter, NoCounter, NoCounter, NoCounter, NoCounter)

  /** Every breakdown of an edge adds up to its number of meetings. */
  predicate EdgeOk(e: Edge)
  {
    SumCounts(e.surfaceMatches) == e.matches && SumCounts(e.tourneyMatches) == e.matches
    && SumCounts(e.firstWinsBySurface) + SumCounts(e.secondWinsBySurface) == e.matches
    && SumCounts(e.firstWinsByTourney) + SumCounts(e.secondWinsByTourney) == e.matches
  }

  /** One more meeting on the edge, credited to the first name of the key when it won. */
  function Meet(e: Edge, surface: string, tourney: string, firstWon: bool): (r: Edge)
    ensures r.matches == e.matches + 1
    ensures r.firstWinsBySurface == if firstWon then Bump(e.firstWinsBySurface, surface) else e.firstWinsBySurface
  {
    var e1 := e.(matches := e.matches + 1, surfaceMatches := Bump(e.surfaceMatches, surface),
                 tourneyMatches := Bump(e.tourneyMatches, tourney));
    if firstWon then
      e1.(firstWinsBySurface := Bump(e.firstWinsBySurface, surface), firstWinsByTourney := Bump(e.firstWinsByTourney, tourney))
    else
      e1.(secondWinsBySurface := Bump(e.secondWinsBySurface, surface), secondWinsByTourney := Bump(e.secondWinsByTourney, tourney))
  }

  /** A meeting keeps every breakdown adding up to the meetings. */
  lemma MeetOk(e: Edge, surface: string, tourney: string, firstWon: bool)
    requires EdgeOk(e)
    ensures EdgeOk(Meet(e, surface, tourney, firstWon))
  {
  }


  /** Both players are named. */
  predicate Named(e: Enriched) { e.row.winnerName.Some? && e.row.loserName.Some? }

  predicate AllNamed(rows: seq<Enriched>) { forall k :: 0 <= k < |rows| ==> Named(rows[k]) }

  /** `str(cell)`: a missing cell prints as "nan". */
  function Label(o: Option<string>): string { if o.Some? then o.value else "nan" }

  /** `rank <= 5`, false for a missing rank. */
  predicate Top5(rank: Option<int>) { rank.Some? && rank.value <= 5 }

  predicate WonBy(e: Enriched, p: string) { e.row.winnerName == Some(p) }
  predicate LostBy(e: Enriched, p: string) { e.row.loserName == Some(p) }
  predicate Plays(e: Enriched, p: string) { WonBy(e, p) || LostBy(e, p) }

  /** The two players met, `p` on one side and `q` on the other. */
  predicate Opposed(e: Enriched, p: string, q: string)
  {
    (e.row.winnerName == Some(p) && e.row.loserName == Some(q)) || (e.row.loserName == Some(p) && e.row.winnerName == Some(q))
  }

  // ---------------------------------------------------------------- nodes

  /** The `nodes` dictionary, with its keys in insertion order. */
  datatype Players = Players(nodes: map<string, Node>, order: seq<string>)

  const NoPlayers := Players(map[], [])

  /** A player's node, created with their career columns the first time they appear. */
  function AddNode(ps: Players, name: string, country: Option<string>, metrics: map<string, Career>): (r: Players)
    ensures name in r.nodes && forall p :: p in ps.nodes ==> p in r.nodes
  {
    if name in ps.nodes then ps
    else Players(ps.nodes[name := Node(CareerOf(metrics, name, country), NoCounts)], ps.order + [name])
  }

  /** Both players of a match have a node. */
  function Enter(ps: Players, e: Enriched, metrics: map<string, Career>): (r: Players)
    requires Named(e)
    ensures e.row.winnerName.value in r.nodes && e.row.loserName.value in r.nodes
  {
    AddNode(AddNode(ps, e.row.winnerName.value, e.row.winnerIoc, metrics), e.row.loserName.value, e.row.loserIoc, metrics)
  }

  /** The winner's counters, then the loser's. */
  function Credit(ps: Players, e: Enriched): Players
    requires Named(e) && e.row.winnerName.value in ps.nodes && e.row.loserName.value in ps.nodes
  {
    var w, l := e.row.winnerName.value, e.row.loserName.value;
    var surface, tourney := Label(e.row.surface), Label(e.row.tourneyName);
    var n1 := ps.nodes[w := ps.nodes[w].(counts := Won(ps.nodes[w].counts, surface, tourney, l, Top5(e.row.loserRank)))];
    Players(n1[l := n1[l].(counts := Lost(n1[l].counts, surface, tourney, w, Top5(e.row.winnerRank)))], ps.order)
  }

  /** What one match does to the nodes. */
  function PlayerStep(ps: Players, e: Enriched, metrics: map<string, Career>): Players
    requires Named(e)
  {
    Credit(Enter(ps, e, metrics), e)
  }

  /** The nodes after the rows of `f`, in order. */
  function PlayersAfter(f: seq<Enriched>, metrics: map<string, Career>): Players
    requires AllNamed(f)
  {
    if |f| == 0 then NoPlayers else PlayerStep(PlayersAfter(f[..|f| - 1], metrics), f[|f| - 1], metrics)
  }

  /** The dictionary's keys are exactly the listed names, each listed once. */
  ghost predicate PlayersWf(ps: Players)
  {
    (forall p :: p in ps.nodes <==> p in ps.order)
    && (forall i, j :: 0 <= i < j < |ps.order| ==> ps.order[i] != ps.order[j])
  }

  /** Every node counts its wins within its matches. */
  ghost predicate PlayersOk(ps: Players)
  {
    forall p :: p in ps.nodes ==> CountsOk(ps.nodes[p].counts)
  }

  lemma AddNodeWf(ps: Players, name: string, country: Option<string>, metrics: map<string, Career>)
    requires PlayersWf(ps)
    ensures PlayersWf(AddNode(ps, name, country, metrics))
  {
  }

  lemma PlayerStepWf(ps: Players, e: Enriched, metrics: map<string, Career>)
    requires Named(e) && PlayersWf(ps)
    ensures PlayersWf(PlayerStep(ps, e, metrics))
  {
    AddNodeWf(ps, e.row.winnerName.value, e.row.winnerIoc, metrics);
    AddNodeWf(AddNode(ps, e.row.winnerName.value, e.row.winnerIoc, metrics), e.row.loserName.value, e.row.loserIoc, metrics);
    var ps1 := Enter(ps, e, metrics);
    assert PlayerStep(ps, e, metrics).nodes.Keys == ps1.nodes.Keys;
  }

  lemma EnterOk(ps: Players, e: Enriched, metrics: map<string, Career>)
    requires Named(e) && PlayersOk(ps)
    ensures PlayersOk(Enter(ps, e, metrics))
  {
    assert CountsOk(NoCounts);
  }

  lemma NodesUpdate(ps: Players, p: string, n: Node)
    requires PlayersOk(ps) && CountsOk(n.counts)
    ensures PlayersOk(Players(ps.nodes[p := n], ps.order))
  {
  }

  lemma CreditPlayersOk(ps: Players, e: Enriched)
    requires Named(e) && e.row.winnerName.value in ps.nodes && e.row.loserName.value in ps.nodes && PlayersOk(ps)
    ensures PlayersOk(Credit(ps, e))
  {
    var w, l := e.row.winnerName.value, e.row.loserName.value;
    var surface, tourney := Label(e.row.surface), Label(e.row.tourneyName);
    CreditOk(ps.nodes[w].counts, surface, tourney, l, Top5(e.row.loserRank));
    var n1 := ps.nodes[w := ps.nodes[w].(counts := Won(ps.nodes[w].counts, surface, tourney, l, Top5(e.row.loserRank)))];
    NodesUpdate(ps, w, ps.nodes[w].(counts := Won(ps.nodes[w].counts, surface, tourney, l, Top5(e.row.loserRank))));
    CreditOk(n1[l].counts, surface, tourney, w, Top5(e.row.winnerRank));
    NodesUpdate(Players(n1, ps.order), l, n1[l].(counts := Lost(n1[l].counts, surface, tourney, w, Top5(e.row.winnerRank))));
  }

  lemma PlayerStepOk(ps: Players, e: Enriched, metrics: map<string, Career>)
    requires Named(e) && PlayersOk(ps)
    ensures PlayersOk(PlayerStep(ps, e, metrics))
  {
    EnterOk(ps, e, metrics);
    CreditPlayersOk(Enter(ps, e, metrics), e);
  }

  lemma {:induction false} PlayersInvariants(f: seq<Enriched>, metrics: map<string, Career>)
    requires AllNamed(f)
    ensures PlayersWf(PlayersAfter(f, metrics)) && PlayersOk(PlayersAfter(f, metrics))
  {
    if |f| > 0 {
      PlayersInvariants(f[..|f| - 1], metrics);
      PlayerStepWf(PlayersAfter(f[..|f| - 1], metrics), f[|f| - 1], metrics);
      PlayerStepOk(PlayersAfter(f[..|f| - 1], metrics), f[|f| - 1], metrics);
    }
  }

  /** A player's counters, or none when the player has no node. */
  function CountsFor(ps: Players, p: string): Counts
  {
    if p in ps.nodes then ps.nodes[p].counts else NoCounts
  }

  lemma EnterNode(ps: Players, e: Enriched, metrics: map<string, Career>, p: string)
    requires Named(e)
    ensures p in Enter(ps, e, metrics).nodes <==> p in ps.nodes || Plays(e, p)
    ensures CountsFor(Enter(ps, e, metrics), p) == CountsFor(ps, p)
  {
  }

  lemma CreditNode(ps: Players, e: Enriched, p: string)
    requires Named(e) && e.row.winnerName.value in ps.nodes && e.row.loserName.value in ps.nodes
    ensures p in Credit(ps, e).nodes <==> p in ps.nodes
    ensures CountsFor(Credit(ps, e), p).won == CountsFor(ps, p).won + (if WonBy(e, p) then 1 else 0)
    ensures CountsFor(Credit(ps, e), p).played
            == CountsFor(ps, p).played + (if WonBy(e, p) then 1 else 0) + (if LostBy(e, p) then 1 else 0)
    ensures forall q :: q in CountsFor(Credit(ps, e), p).opponents <==> q in CountsFor(ps, p).opponents || Opposed(e, p, q)
  {
  }

  /** How one match changes one player's node. */
  lemma StepNode(ps: Players, e: Enriched, metrics: map<string, Career>, p: string)
    requires Named(e)
    ensures p in PlayerStep(ps, e, metrics).nodes <==> p in ps.nodes || Plays(e, p)
    ensures CountsFor(PlayerStep(ps, e, metrics), p).won == CountsFor(ps, p).won + (if WonBy(e, p) then 1 else 0)
    ensures CountsFor(PlayerStep(ps, e, metrics), p).played
            == CountsFor(ps, p).played + (if WonBy(e, p) then 1 else 0) + (if LostBy(e, p) then 1 else 0)
    ensures forall q :: q in CountsFor(PlayerStep(ps, e, metrics), p).opponents <==> q in CountsFor(ps, p).opponents || Opposed(e, p, q)
  {
    EnterNode(ps, e, metrics, p);
    CreditNode(Enter(ps, e, metrics), e, p);
  }

  /** A player has a node exactly when a filtered match names them. */
  lemma {:induction false} NodePresence(f: seq<Enriched>, metrics: map<string, Career>, p: string)
    requires AllNamed(f)
    ensures p in PlayersAfter(f, metrics).nodes <==> Appears(f, p)
  {
    if |f| > 0 {
      var init, e := f[..|f| - 1], f[|f| - 1];
      assert forall k :: 0 <= k < |init| ==> init[k] == f[k];
      NodePresence(init, metrics, p);
      StepNode(PlayersAfter(init, metrics), e, metrics, p);
      if Plays(e, p) {
        assert Plays(f[|f| - 1], p);
      }
    }
  }

  /** A node counts the filtered matches its player won and played. */
  lemma {:induction false} NodeTallies(f: seq<Enriched>, metrics: map<string, Career>, p: string)
    requires AllNamed(f)
    ensures CountsFor(PlayersAfter(f, metrics), p).won == Count(f, (e: Enriched) => WonBy(e, p))
    ensures CountsFor(PlayersAfter(f, metrics), p).played == Count(f, (e: Enriched) => WonBy(e, p)) + Count(f, (e: Enriched) => LostBy(e, p))
  {
    if |f| > 0 {
      var init, e := f[..|f| - 1], f[|f| - 1];
      assert f == init + [e];
      NodeTallies(init, metrics, p);
      StepNode(PlayersAfter(init, metrics), e, metrics, p);
      CountSnoc(init, e, (e: Enriched) => WonBy(e, p));
      CountSnoc(init, e, (e: Enriched) => LostBy(e, p));
    }
  }

  /** A node's opponents are exactly the players its player met. */
  lemma {:induction false} NodeOpponents(f: seq<Enriched>, metrics: map<string, Career>, p: string, q: string)
    requires AllNamed(f)
    ensures q in CountsFor(PlayersAfter(f, metrics), p).opponents <==> exists k :: 0 <= k < |f| && Opposed(f[k], p, q)
  {
    if |f| > 0 {
      var init, e := f[..|f| - 1], f[|f| - 1];
      assert forall k :: 0 <= k < |init| ==> init[k] == f[k];
      NodeOpponents(init, metrics, p, q);
      StepNode(PlayersAfter(init, metrics), e, metrics, p);
      if Opposed(e, p, q) {
        assert Opposed(f[|f| - 1], p, q);
      }
    }
  }

  // ---------------------------------------------------------------- edges

  /** The `edges` dictionary, with its keys in insertion order. */
  datatype Pairs = Pairs(edges: map<(string, string), Edge>, order: seq<(string, string)>)

  const NoPairs := Pairs(map[], [])

  /** The key of a row's edge: the sorted pair of names. */
  function KeyOf(e: Enriched): (string, string)
    requires Named(e)
  {
    HeadToHead.Key(e.row.winnerName.value, e.row.loserName.value)
  }

  function AddEdge(qs: Pairs, key: (string, string)): (r: Pairs)
    ensures key in r.edges
  {
    if key in qs.edges then qs else Pairs(qs.edges[key := NoEdge], qs.order + [key])
  }

  /** A meeting on the edge keyed `key`, created the first time the pair meets. */
  function Record(qs: Pairs, key: (string, string), surface: string, tourney: string, firstWon: bool): Pairs
  {
    var q1 := AddEdge(qs, key);
    Pairs(q1.edges[key := Meet(q1.edges[key], surface, tourney, firstWon)], q1.order)
  }

  /** What one match does to the edges. */
  function PairStep(qs: Pairs, e: Enriched): Pairs
    requires Named(e)
  {
    var key := KeyOf(e);
    Record(qs, key, Label(e.row.surface), Label(e.row.tourneyName), key.0 == e.row.winnerName.value)
  }

  /** The edges after the rows of `f`, in order. */
  function PairsAfter(f: seq<Enriched>): Pairs
    requires AllNamed(f)
  {
    if |f| == 0 then NoPairs else PairStep(PairsAfter(f[..|f| - 1]), f[|f| - 1])
  }

  /** The dictionary's keys are exactly the listed pairs, each listed once. */
  ghost predicate PairsWf(qs: Pairs)
  {
    (forall k :: k in qs.edges <==> k in qs.order)
    && (forall i, j :: 0 <= i < j < |qs.order| ==> qs.order[i] != qs.order[j])
  }

  /** Every edge's breakdowns add up to its meetings. */
  ghost predicate PairsOk(qs: Pairs)
  {
    forall k :: k in qs.edges ==> EdgeOk(qs.edges[k])
  }

  lemma EdgesUpdate(qs: Pairs, key: (string, string), x: Edge)
    requires PairsOk(qs) && EdgeOk(x)
    ensures PairsOk(Pairs(qs.edges[key := x], qs.order))
  {
  }

  lemma AddEdgeWf(qs: Pairs, key: (string, string))
    requires PairsWf(qs)
    ensures PairsWf(AddEdge(qs, key))
  {
    if key !in qs.edges {
      var r := AddEdge(qs, key);
      assert r.order == qs.order + [key];
      forall i, j | 0 <= i < j < |r.order|
        ensures r.order[i] != r.order[j]
      {
        if j == |qs.order| {
          assert r.order[i] == qs.order[i];
          assert qs.order[i] in qs.order;
        }
      }
    }
  }

  lemma AddEdgeOk(qs: Pairs, key: (string, string))
    requires PairsOk(qs)
    ensures PairsOk(AddEdge(qs, key))
  {
    if key !in qs.edges {
      assert EdgeOk(NoEdge);
      EdgesUpdate(qs, key, NoEdge);
    }
  }

  lemma RecordWf(qs: Pairs, key: (string, string), surface: string, tourney: string, firstWon: bool)
    requires PairsWf(qs)
    ensures PairsWf(Record(qs, key, surface, tourney, firstWon))
  {
    AddEdgeWf(qs, key);
    var q1 := AddEdge(qs, key);
    assert Record(qs, key, surface, tourney, firstWon).edges.Keys == q1.edges.Keys;
  }

  lemma RecordOk(qs: Pairs, key: (string, string), surface: string, tourney: string, firstWon: bool)
    requires PairsOk(qs)
    ensures PairsOk(Record(qs, key, surface, tourney, firstWon))
  {
    AddEdgeOk(qs, key);
    var q1 := AddEdge(qs, key);
    MeetOk(q1.edges[key], surface, tourney, firstWon);
    EdgesUpdate(q1, key, Meet(q1.edges[key], surface, tourney, firstWon));
  }

  lemma PairStepInvariants(qs: Pairs, e: Enriched)
    requires Named(e) && PairsWf(qs) && PairsOk(qs)
    ensures PairsWf(PairStep(qs, e)) && PairsOk(PairStep(qs, e))
  {
    var key := KeyOf(e);
    RecordWf(qs, key, Label(e.row.surface), Label(e.row.tourneyName), key.0 == e.row.winnerName.value);
    RecordOk(qs, key, Label(e.row.surface), Label(e.row.tourneyName), key.0 == e.row.winnerName.value);
  }

  lemma {:induction false} PairsInvariants(f: seq<Enriched>)
    requires AllNamed(f)
    ensures PairsWf(PairsAfter(f)) && PairsOk(PairsAfter(f))
  {
    if |f| > 0 {
      PairsInvariants(f[..|f| - 1]);
      PairStepInvariants(PairsAfter(f[..|f| - 1]), f[|f| - 1]);
    }
  }

  /** Every edge key is a sorted pair. */
  lemma {:induction false} KeysSorted(f: seq<Enriched>)
    requires AllNamed(f)
    ensures SortedKeys(PairsAfter(f))
  {
    if |f| > 0 {
      KeysSorted(f[..|f| - 1]);
    }
  }

  /** An edge, or no meetings when the pair has none. */
  function EdgeFor(qs: Pairs, key: (string, string)): Edge
  {
    if key in qs.edges then qs.edges[key] else NoEdge
  }

  /** The row is a meeting of the pair keyed `key`. */
  predicate Between(e: Enriched, key: (string, string)) { Named(e) && KeyOf(e) == key }

  /** The row is a meeting of the pair that the key's first name won. */
  predicate FirstWon(e: Enriched, key: (string, string)) { Between(e, key) && e.row.winnerName == Some(key.0) }

  /** How one match changes one pair's edge. */
  lemma StepEdge(qs: Pairs, e: Enriched, key: (string, string))
    requires Named(e)
    ensures key in PairStep(qs, e).edges <==> key in qs.edges || Between(e, key)
    ensures EdgeFor(PairStep(qs, e), key).matches == EdgeFor(qs, key).matches + (if Between(e, key) then 1 else 0)
    ensures SumCounts(EdgeFor(PairStep(qs, e), key).firstWinsBySurface)
            == SumCounts(EdgeFor(qs, key).firstWinsBySurface) + (if FirstWon(e, key) then 1 else 0)
  {
  }

  /**
   * An edge exists exactly for the pairs that met; it counts their meetings, and its
   * first-name wins count the meetings the first name of the sorted pair won.
   */
  lemma EdgeFacts(f: seq<Enriched>, key: (string, string))
    requires AllNamed(f)
    ensures key in PairsAfter(f).edges <==> exists k :: 0 <= k < |f| && Between(f[k], key)
    ensures EdgeFor(PairsAfter(f), key).matches == Count(f, (e: Enriched) => Between(e, key))
    ensures SumCounts(EdgeFor(PairsAfter(f), key).firstWinsBySurface) == Count(f, (e: Enriched) => FirstWon(e, key))
  {
    EdgeExists(f, key);
    EdgeCounts(f, key);
  }

  lemma {:induction false} EdgeExists(f: seq<Enriched>, key: (string, string))
    requires AllNamed(f)
    ensures key in PairsAfter(f).edges <==> Met(f, key)
  {
    if |f| > 0 {
      var init := f[..|f| - 1];
      MetSnoc(f, key);
      EdgeExists(init, key);
      StepEdge(PairsAfter(init), f[|f| - 1], key);
    }
  }

  /** Some row of `f` is a meeting of the pair keyed `key`. */
  predicate Met(f: seq<Enriched>, key: (string, string))
  {
    exists k :: 0 <= k < |f| && Between(f[k], key)
  }

  /** A pair met in a non-empty table exactly when it met before the last row or in it. */
  lemma MetSnoc(f: seq<Enriched>, key: (string, string))
    requires |f| > 0 && AllNamed(f)
    ensures AllNamed(f[..|f| - 1])
    ensures Met(f, key) <==> Met(f[..|f| - 1], key) || Between(f[|f| - 1], key)
  {
    var init := f[..|f| - 1];
    assert forall k :: 0 <= k < |init| ==> init[k] == f[k];
  }

  lemma {:induction false} EdgeCounts(f: seq<Enriched>, key: (string, string))
    requires AllNamed(f)
    ensures EdgeFor(PairsAfter(f), key).matches == Count(f, (e: Enriched) => Between(e, key))
    ensures SumCounts(EdgeFor(PairsAfter(f), key).firstWinsBySurface) == Count(f, (e: Enriched) => FirstWon(e, key))
  {
    if |f| > 0 {
      var init, e := f[..|f| - 1], f[|f| - 1];
      assert f == init + [e];
      EdgeCounts(init, key);
      StepEdge(PairsAfter(init), e, key);
      CountSnoc(init, e, (e: Enriched) => Between(e, key));
      CountSnoc(init, e, (e: Enriched) => FirstWon(e, key));
    }
  }

  // ---------------------------------------------------------------- output

  /** One entry of `node_list`. */
  datatype NodeRow = NodeRow(
    name: string, career: Career, counts: Counts, winPct: real, winPctCategory: string,
    top5WinPct: real, uniqueOpponents: nat,
    surfaceWinPcts: seq<(string, real)>, tourneyWinPcts: seq<(string, real)>)

  /** The per-key win percentages, walking the wins dictionary in its order. */
  function WinPcts(wins: Counter, matches: Counter): (r: seq<(string, real)>)
    ensures |r| == |Keys(wins)|
    ensures forall i :: 0 <= i < |r| ==> r[i].0 == Keys(wins)[i] && r[i].1 == WinPercentage(Get(wins, r[i].0), Get(matches, r[i].0))
    ensures multiset(wins) <= multiset(matches) ==> forall i :: 0 <= i < |r| ==> 0.0 <= r[i].1 <= 100.0
  {
    var ks := Keys(wins);
    seq(|ks|, i requires 0 <= i < |ks| => (ks[i], WinPercentage(Get(wins, ks[i]), Get(matches, ks[i]))))
  }

  function NodeRowOf(name: string, n: Node): (r: NodeRow)
    ensures r.name == name && r.counts == n.counts && r.uniqueOpponents == |n.counts.opponents|
    ensures r.winPctCategory == Categorize(r.winPct) && r.winPctCategory in Bands
    ensures CountsOk(n.counts) ==> 0.0 <= r.winPct <= 100.0 && 0.0 <= r.top5WinPct <= 100.0
    ensures CountsOk(n.counts) ==> forall i :: 0 <= i < |r.surfaceWinPcts| ==> 0.0 <= r.surfaceWinPcts[i].1 <= 100.0
  {
    var c := n.counts;
    var pct := WinPercentage(c.won, c.played);
    NodeRow(name, n.career, c, pct, Categorize(pct), WinPercentage(c.top5Wins, c.top5Matches), |c.opponents|,
            WinPcts(c.surfaceWins, c.surfaceMatches), WinPcts(c.tourneyWins, c.tourneyMatches))
  }

  /** One entry of `edge_list`. */
  datatype EdgeRow = EdgeRow(
    player1: string, player2: string, totalMatches: nat, player1Wins: nat, player2Wins: int,
    surfaceBreakdown: Counter, tourneyBreakdown: Counter,
    player1SurfaceWins: Counter, player2SurfaceWins: Counter)

  /**
   * An edge as listed: the first name's wins when it sorts strictly first, otherwise the
   * other side's, and the rest of the meetings to the second name.
   */
  function EdgeRowOf(key: (string, string), e: Edge): (r: EdgeRow)
    ensures r.player1 == key.0 && r.player2 == key.1 && r.totalMatches == e.matches
    ensures EdgeOk(e) ==> r.player1Wins + r.player2Wins == r.totalMatches && r.player2Wins >= 0
    ensures EdgeOk(e) ==> SumCounts(r.surfaceBreakdown) == r.totalMatches == SumCounts(r.tourneyBreakdown)
    ensures StrLt(key.0, key.1) ==> r.player1Wins == SumCounts(e.firstWinsBySurface)
  {
    var first := StrLt(key.0, key.1);
    var p1 := if first then SumCounts(e.firstWinsBySurface) else SumCounts(e.secondWinsBySurface);
    EdgeRow(key.0, key.1, e.matches, p1, e.matches - p1, e.surfaceMatches, e.tourneyMatches,
            if first then e.firstWinsBySurface else e.secondWinsBySurface,
            if first then e.secondWinsBySurface else e.firstWinsBySurface)
  }

  /**
   * Between two different players, `player1_wins` counts the meetings the alphabetically
   * first one won, and the two players' wins add up to their meetings.
   */
  lemma EdgeRowCounts(f: seq<Enriched>, key: (string, string))
    requires AllNamed(f) && key in PairsAfter(f).edges && key.0 != key.1
    ensures EdgeRowOf(key, PairsAfter(f).edges[key]).player1Wins == Count(f, (e: Enriched) => FirstWon(e, key))
    ensures EdgeRowOf(key, PairsAfter(f).edges[key]).player1Wins + EdgeRowOf(key, PairsAfter(f).edges[key]).player2Wins
            == Count(f, (e: Enriched) => Between(e, key))
  {
    PairsInvariants(f);
    EdgeFacts(f, key);
    KeysSorted(f);
    StrLtTotal(key.0, key.1);
  }

  /** The returned dictionary: node and edge lists and the metadata. */
  datatype NetworkData = NetworkData(
    nodes: seq<NodeRow>, edges: seq<EdgeRow>,
    totalMatches: nat, totalPlayers: nat, totalMatchups: nat, minYear: nat, maxYear: nat)

  function MinYear(f: seq<Enriched>): (y: nat)
    requires |f| > 0
    ensures forall k :: 0 <= k < |f| ==> y <= f[k].year
    ensures exists k :: 0 <= k < |f| && y == f[k].year
  {
    if |f| == 1 then f[0].year
    else var m := MinYear(f[..|f| - 1]); if f[|f| - 1].year < m then f[|f| - 1].year else m
  }

  function MaxYear(f: seq<Enriched>): (y: nat)
    requires |f| > 0
    ensures forall k :: 0 <= k < |f| ==> f[k].year <= y
    ensures exists k :: 0 <= k < |f| && y == f[k].year
  {
    if |f| == 1 then f[0].year
    else var m := MaxYear(f[..|f| - 1]); if f[|f| - 1].year > m then f[|f| - 1].year else m
  }

  /** `node_list`: one row per node, in insertion order. */
  function NodeRows(ps: Players): (r: seq<NodeRow>)
    requires PlayersWf(ps)
    ensures |r| == |ps.order|
    ensures forall k :: 0 <= k < |r| ==> r[k] == NodeRowOf(ps.order[k], ps.nodes[ps.order[k]])
    ensures PlayersOk(ps) ==> forall k :: 0 <= k < |r| ==> 0.0 <= r[k].winPct <= 100.0
  {
    seq(|ps.order|, k requires 0 <= k < |ps.order| => NodeRowOf(ps.order[k], ps.nodes[ps.order[k]]))
  }

  /** `edge_list`: one row per edge, in insertion order. */
  function EdgeRows(qs: Pairs): (r: seq<EdgeRow>)
    requires PairsWf(qs)
    ensures |r| == |qs.order|
    ensures forall k :: 0 <= k < |r| ==> r[k] == EdgeRowOf(qs.order[k], qs.edges[qs.order[k]])
    ensures PairsOk(qs) ==> forall k :: 0 <= k < |r| ==> r[k].player1Wins + r[k].player2Wins == r[k].totalMatches && r[k].player2Wins >= 0
  {
    seq(|qs.order|, k requires 0 <= k < |qs.order| => EdgeRowOf(qs.order[k], qs.edges[qs.order[k]]))
  }

  /** The nodes and edges listed in insertion order, with the metadata of the filtered rows. */
  function NetworkOf(ps: Players, qs: Pairs, f: seq<Enriched>): (r: NetworkData)
    requires PlayersWf(ps) && PairsWf(qs) && |f| > 0
    ensures r.totalMatches == |f| && r.totalPlayers == |r.nodes| == |ps.order| && r.totalMatchups == |r.edges| == |qs.order|
    ensures forall k :: 0 <= k < |r.nodes| ==> r.nodes[k].name == ps.order[k]
    ensures forall k :: 0 <= k < |r.edges| ==> (r.edges[k].player1, r.edges[k].player2) == qs.order[k]
    ensures PlayersOk(ps) ==> forall k :: 0 <= k < |r.nodes| ==> 0.0 <= r.nodes[k].winPct <= 100.0
    ensures PairsOk(qs) ==> forall k :: 0 <= k < |r.edges| ==>
      r.edges[k].player1Wins + r.edges[k].player2Wins == r.edges[k].totalMatches && r.edges[k].player2Wins >= 0
    ensures r.minYear <= r.maxYear
  {
    var nodes := NodeRows(ps);
    var edges := EdgeRows(qs);
    NetworkData(nodes, edges, |f|, |nodes|, |edges|, MinYear(f), MaxYear(f))
  }

  /** The listing has a node named `p`. */
  predicate Lists(r: NetworkData, p: string) { exists k :: 0 <= k < |r.nodes| && r.nodes[k].name == p }

  /** A filtered row names `p`. */
  predicate Appears(f: seq<Enriched>, p: string) { exists k :: 0 <= k < |f| && Plays(f[k], p) }

  /** Every edge key is a sorted pair. */
  ghost predicate SortedKeys(qs: Pairs)
  {
    forall k :: k in qs.edges ==> !StrLt(k.1, k.0)
  }

  /** A listing of consistent nodes and edges: distinct names, bounded percentages, sorted and balanced pairs. */
  lemma ListingFacts(ps: Players, qs: Pairs, f: seq<Enriched>)
    requires PlayersWf(ps) && PairsWf(qs) && PlayersOk(ps) && PairsOk(qs) && SortedKeys(qs) && |f| > 0
    ensures var r := NetworkOf(ps, qs, f);
      && (forall i, j :: 0 <= i < j < |r.nodes| ==> r.nodes[i].name != r.nodes[j].name)
      && (forall p :: Lists(r, p) <==> p in ps.nodes)
      && (forall k :: 0 <= k < |r.nodes| ==> 0.0 <= r.nodes[k].winPct <= 100.0)
      && (forall k :: 0 <= k < |r.edges| ==> !StrLt(r.edges[k].player2, r.edges[k].player1))
      && (forall k :: 0 <= k < |r.edges| ==> r.edges[k].player1Wins + r.edges[k].player2Wins == r.edges[k].totalMatches)
  {
    var r := NetworkOf(ps, qs, f);
    forall p
      ensures Lists(r, p) <==> p in ps.nodes
    {
      if p in ps.nodes {
        var k :| 0 <= k < |ps.order| && ps.order[k] == p;
        assert r.nodes[k].name == p;
      }
    }
    forall k | 0 <= k < |r.edges|
      ensures !StrLt(r.edges[k].player2, r.edges[k].player1)
    {
      assert qs.order[k] in qs.edges;
    }
  }

  /**
   * The graph of the filtered rows lists every named player once and nobody else, every
   * pair that met once as a sorted pair, and every count within its bounds.
   */
  lemma NetworkFacts(f: seq<Enriched>, metrics: map<string, Career>)
    requires AllNamed(f) && |f| > 0
    ensures PlayersWf(PlayersAfter(f, metrics)) && PairsWf(PairsAfter(f))
    ensures var r := NetworkOf(PlayersAfter(f, metrics), PairsAfter(f), f);
      && (forall i, j :: 0 <= i < j < |r.nodes| ==> r.nodes[i].name != r.nodes[j].name)
      && (forall p :: Lists(r, p) <==> Appears(f, p))
      && (forall k :: 0 <= k < |r.nodes| ==> 0.0 <= r.nodes[k].winPct <= 100.0)
      && (forall k :: 0 <= k < |r.edges| ==> !StrLt(r.edges[k].player2, r.edges[k].player1))
      && (forall k :: 0 <= k < |r.edges| ==> r.edges[k].player1Wins + r.edges[k].player2Wins == r.edges[k].totalMatches)
  {
    PlayersInvariants(f, metrics);
    PairsInvariants(f);
    KeysSorted(f);
    ListingFacts(PlayersAfter(f, metrics), PairsAfter(f), f);
    forall p
      ensures p in PlayersAfter(f, metrics).nodes <==> Appears(f, p)
    {
      NodePresence(f, metrics, p);
    }
  }

  /** The loop body's node updates: both players' nodes exist, then the winner's and the loser's counters. */
  method UpdateNodes(nodes: map<string, Node>, nodeOrder: seq<string>, e: Enriched, metrics: map<string, Career>)
    returns (nodes': map<string, Node>, nodeOrder': seq<string>)
    requires Named(e)
    ensures Players(nodes', nodeOrder') == PlayerStep(Players(nodes, nodeOrder), e, metrics)
  {
    var w, l := e.row.winnerName.value, e.row.loserName.value;
    var surface, tourney := Label(e.row.surface), Label(e.row.tourneyName);
    nodes', nodeOrder' := nodes, nodeOrder;
    if w !in nodes' {
      nodes' := nodes'[w := Node(CareerOf(metrics, w, e.row.winnerIoc), NoCounts)];
      nodeOrder' := nodeOrder' + [w];
    }
    if l !in nodes' {
      nodes' := nodes'[l := Node(CareerOf(metrics, l, e.row.loserIoc), NoCounts)];
      nodeOrder' := nodeOrder' + [l];
    }
    assert Players(nodes', nodeOrder') == Enter(Players(nodes, nodeOrder), e, metrics);
    nodes' := nodes'[w := nodes'[w].(counts := Won(nodes'[w].counts, surface, tourney, l, Top5(e.row.loserRank)))];
    nodes' := nodes'[l := nodes'[l].(counts := Lost(nodes'[l].counts, surface, tourney, w, Top5(e.row.winnerRank)))];
  }

  /** The loop body's edge update: the pair's edge exists, then it records the meeting. */
  method UpdateEdges(edges: map<(string, string), Edge>, edgeOrder: seq<(string, string)>, e: Enriched)
    returns (edges': map<(string, string), Edge>, edgeOrder': seq<(string, string)>)
    requires Named(e)
    ensures Pairs(edges', edgeOrder') == PairStep(Pairs(edges, edgeOrder), e)
  {
    var w, l := e.row.winnerName.value, e.row.loserName.value;
    var key := HeadToHead.Key(w, l);
    edges', edgeOrder' := edges, edgeOrder;
    if key !in edges' {
      edges' := edges'[key := NoEdge];
      edgeOrder' := edgeOrder' + [key];
    }
    edges' := edges'[key := Meet(edges'[key], Label(e.row.surface), Label(e.row.tourneyName), key.0 == w)];
  }

  /** The loop that builds `node_list`. */
  method ListNodes(ps: Players) returns (rows: seq<NodeRow>)
    requires PlayersWf(ps)
    ensures rows == NodeRows(ps)
  {
    rows := [];
    var j := 0;
    while j < |ps.order|
      invariant 0 <= j <= |ps.order| && rows == NodeRows(ps)[..j]
    {
      rows := rows + [NodeRowOf(ps.order[j], ps.nodes[ps.order[j]])];
      j := j + 1;
    }
  }

  /** The loop that builds `edge_list`. */
  method ListEdges(qs: Pairs) returns (rows: seq<EdgeRow>)
    requires PairsWf(qs)
    ensures rows == EdgeRows(qs)
  {
    rows := [];
    var j := 0;
    while j < |qs.order|
      invariant 0 <= j <= |qs.order| && rows == EdgeRows(qs)[..j]
    {
      rows := rows + [EdgeRowOf(qs.order[j], qs.edges[qs.order[j]])];
      j := j + 1;
    }
  }

  /** One more named row extends both folds by one step. */
  lemma AfterSnoc(f: seq<Enriched>, i: nat, metrics: map<string, Career>)
    requires i < |f| && AllNamed(f[..i]) && Named(f[i])
    ensures AllNamed(f[..i + 1])
    ensures PlayersAfter(f[..i + 1], metrics) == PlayerStep(PlayersAfter(f[..i], metrics), f[i], metrics)
    ensures PairsAfter(f[..i + 1]) == PairStep(PairsAfter(f[..i]), f[i])
  {
    assert f[..i + 1][..i] == f[..i];
  }

  /**
   * The loop over the filtered rows that fills the `nodes` and `edges` dictionaries; it
   * fails at the first row that does not name both players.
   */
  method BuildGraph(f: seq<Enriched>, metrics: map<string, Career>) returns (g: Option<(Players, Pairs)>)
    ensures g.None? <==> !AllNamed(f)
    ensures g.Some? ==> AllNamed(f) && g.value == (PlayersAfter(f, metrics), PairsAfter(f))
  {
    var nodes: map<string, Node> := map[];
    var nodeOrder: seq<string> := [];
    var edges: map<(string, string), Edge> := map[];
    var edgeOrder: seq<(string, string)> := [];
    var i := 0;
    while i < |f|
      invariant 0 <= i <= |f| && AllNamed(f[..i])
      invariant Players(nodes, nodeOrder) == PlayersAfter(f[..i], metrics)
      invariant Pairs(edges, edgeOrder) == PairsAfter(f[..i])
    {
      var e := f[i];
      if !Named(e) {
        return None;
      }
      AfterSnoc(f, i, metrics);
      nodes, nodeOrder := UpdateNodes(nodes, nodeOrder, e, metrics);
      edges, edgeOrder := UpdateEdges(edges, edgeOrder, e);
      i := i + 1;
    }
    assert f[..i] == f;
    g := Some((Players(nodes, nodeOrder), Pairs(edges, edgeOrder)));
  }

  /**
   * `build_network_data`. It fails (the source raises) when a kept row names only one of its
   * players, since the sorted pair then mixes a name with a missing value, and when no row
   * is kept, since the year range of an empty table is missing. A row missing both names
   * fails here too; the source goes on with NaN keys there.
   */
  method BuildNetworkData(rows: seq<Enriched>, metrics: map<string, Career>, yf: YearFilter,
                          tourneys: seq<string>, rounds: seq<string>) returns (r: Option<NetworkData>)
    ensures var f := FilterRows(rows, yf, tourneys, rounds);
      r.None? <==> |f| == 0 || !AllNamed(f)
    ensures var f := FilterRows(rows, yf, tourneys, rounds);
      r.Some? ==> AllNamed(f) && |f| > 0 && PlayersWf(PlayersAfter(f, metrics)) && PairsWf(PairsAfter(f))
                  && r.value == NetworkOf(PlayersAfter(f, metrics), PairsAfter(f), f)
  {
    var f := FilterRows(rows, yf, tourneys, rounds);
    var g := BuildGraph(f, metrics);
    if g.None? || |f| == 0 {
      return None;
    }
    var (ps, qs) := g.value;
    PlayersInvariants(f, metrics);
    PairsInvariants(f);
    var nodeList := ListNodes(ps);
    var edgeList := ListEdges(qs);
    r := Some(NetworkData(nodeList, edgeList, |f|, |nodeList|, |edgeList|, MinYear(f), MaxYear(f)));
  }
}
