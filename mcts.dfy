/** The lazily expanded Monte Carlo search tree of `src/engine/tools.rs`.

    A `Candidate` is a child position that is either still `Waiting` (only
    its position is known) or has been expanded into an `Analysis` node that
    carries the position's encoding, its visit and win counters and its own
    candidates. The tree is modelled on values: an operation that updates a
    node in place returns the updated node. */
module Mcts {
  import opened Common
  import opened Vectors

  /** A chess position. The rules that act on it are the `Game` parameter. */
  type State(==, !new)

  /** `cozy_chess::GameStatus`: `Won` means the side to move has been mated. */
  datatype Status = Ongoing | Won | Drawn

  /** The rules the search consults: the positions one move away, in move
      generation order, the game status, the side to move and the encoding
      `ChessState::state` of a position. */
  datatype Game = Game(
    branch: State -> seq<State>,
    status: State -> Status,
    side: State -> Color,
    encode: State -> Vector)

  /** The `Tools` trait: the policy and value heads of the evaluator. */
  datatype Tools = Tools(policy: Vector -> real, value: Vector -> real)

  /** `Analysis::explore(n, c)` of a node visited `visits > 0` times, that
      is `sqrt(c * ln(n) / visits)`; the logarithm and the square root are
      not interpreted. */
  type Explore = (nat, real, nat) -> real

  datatype Candidate = Waiting(state: State) | Expanded(node: Analysis)

  datatype Analysis = Analysis(
    state: State,
    encoding: Vector,
    visits: nat,
    wins: real,
    children: seq<Candidate>)

  /** What `rollout` and `simulate` leave behind: the updated node and the
      result they return to the parent. */
  datatype Visit = Visit(node: Analysis, result: real)

  /** A `max_by`/`min_by` key: an `f64` that is `+∞` or finite. */
  datatype Score = Inf | Finite(r: real)

  // ---------------------------------------------------------------------
  // Candidates
  // ---------------------------------------------------------------------

  /** `Analysis::from_state`: a node with no visit and no win whose
      candidates are the positions one move away, all waiting. */
  function FromState(g: Game, s: State): (r: Analysis)
    ensures r.state == s && r.encoding == g.encode(s) && r.visits == 0 && r.wins == 0.0
    ensures |r.children| == |g.branch(s)|
    ensures forall i :: 0 <= i < |r.children| ==> r.children[i] == Waiting(g.branch(s)[i])
  {
    var next := g.branch(s);
    Analysis(s, g.encode(s), 0, 0.0, seq(|next|, i requires 0 <= i < |next| => Waiting(next[i])))
  }

  /** `Candidate::analysis`: a waiting candidate is replaced by the node
      built from its position; an expanded one is returned as it is. */
  function Expand(g: Game, c: Candidate): (r: Candidate)
    ensures r.Expanded?
    ensures c.Expanded? ==> r == c
    ensures c.Waiting? ==> r.node.state == c.state && r.node.visits == 0 && r.node.wins == 0.0
  {
    match c
    case Waiting(s) => Expanded(FromState(g, s))
    case Expanded(_) => c
  }

  /** Expanding twice is expanding once: the node is built on first access
      only, and a candidate never returns to `Waiting`. */
  lemma ExpandIdempotent(g: Game, c: Candidate)
    ensures Expand(g, Expand(g, c)) == Expand(g, c)
    ensures c.Waiting? ==> Expand(g, c).node == FromState(g, c.state)
  {
  }

  /** `Candidate::take`: the node of an expanded candidate; a waiting one
      panics. */
  function Take(c: Candidate): (r: Outcome<Analysis>)
    ensures r.Ok? <==> c.Expanded?
  {
    match c
    case Waiting(_) => Panic
    case Expanded(a) => Ok(a)
  }

  /** `take` after `analysis` never panics and yields the expanded node. */
  lemma TakeAfterExpand(g: Game, c: Candidate)
    ensures Take(Expand(g, c)) == Ok(Expand(g, c).node)
  {
  }

  /** `iter_mut().map(|x| x.analysis())`, run to the end: every candidate
      expanded. */
  function ForceAll(g: Game, cs: seq<Candidate>): (r: seq<Candidate>)
    ensures |r| == |cs|
    ensures forall i :: 0 <= i < |cs| ==> r[i] == Expand(g, cs[i])
  {
    seq(|cs|, i requires 0 <= i < |cs| => Expand(g, cs[i]))
  }

  // ---------------------------------------------------------------------
  // Scores and selection
  // ---------------------------------------------------------------------

  /** `a < b` on scores. */
  predicate Below(a: Score, b: Score)
  {
    match a
    case Inf => false
    case Finite(x) => b.Inf? || x < b.r
  }

  /** `Analysis::exploit`: the share of White wins, or its complement when
      Black is to move. */
  function Exploit(g: Game, a: Analysis): (r: real)
    requires a.visits > 0
    ensures g.side(a.state) == White ==> r * a.visits as real == a.wins
    ensures g.side(a.state) == Black ==> (1.0 - r) * a.visits as real == a.wins
    ensures 0.0 <= a.wins <= a.visits as real ==> 0.0 <= r <= 1.0
  {
    var share := a.wins / a.visits as real;
    ShareInUnit(a.wins, a.visits as real);
    match g.side(a.state)
    case White => share
    case Black => 1.0 - share
  }

  lemma ShareInUnit(w: real, v: real)
    requires v > 0.0
    ensures 0.0 <= w <= v ==> 0.0 <= w / v <= 1.0
  {
    if 0.0 <= w <= v {
      assert w / v * v == w;
    }
  }

  /** `Analysis::ucb(n, c)`: `+∞` for a node never visited, otherwise
      `exploit + explore(n, c)`. */
  function Ucb(g: Game, ex: Explore, a: Analysis, n: nat, c: real): (s: Score)
    ensures s == Inf <==> a.visits == 0
  {
    if a.visits == 0 then Inf else Finite(Exploit(g, a) + ex(n, c, a.visits))
  }

  /** `Iterator::max_by` over positions: a left fold that moves to each
      later score unless the one held is strictly greater. The result is
      the LAST of the greatest scores. */
  function LastMax(s: seq<Score>): (i: nat)
    requires |s| > 0
    ensures i < |s|
    ensures forall j :: 0 <= j < |s| ==> !Below(s[i], s[j])
    ensures forall j :: i < j < |s| ==> Below(s[j], s[i])
    decreases |s|
  {
    if |s| == 1 then 0
    else
      var k := LastMax(s[..|s| - 1]);
      if Below(s[|s| - 1], s[k]) then k else |s| - 1
  }

  /** `Iterator::min_by` over positions: a left fold that moves to a later
      score only when the one held is strictly greater. The result is the
      FIRST of the least scores. */
  function FirstMin(s: seq<Score>): (i: nat)
    requires |s| > 0
    ensures i < |s|
    ensures forall j :: 0 <= j < |s| ==> !Below(s[j], s[i])
    ensures forall j :: 0 <= j < i ==> Below(s[i], s[j])
    decreases |s|
  {
    if |s| == 1 then 0
    else
      var k := FirstMin(s[..|s| - 1]);
      if Below(s[|s| - 1], s[k]) then |s| - 1 else k
  }

  /** The UCB score of every expanded candidate, for a parent visited `n`
      times. */
  function ChildScores(g: Game, ex: Explore, kids: seq<Candidate>, n: nat, c: real): seq<Score>
    requires forall i :: 0 <= i < |kids| ==> kids[i].Expanded?
  {
    seq(|kids|, i requires 0 <= i < |kids| => Ucb(g, ex, kids[i].node, n, c))
  }

  /** `Analysis::argmax(c)`: the position of the candidate `simulate`
      descends into. Every candidate is expanded and scored with
      `ucb(visits, c)`; with no candidate, `unwrap` of `None` panics. */
  function ArgMax(g: Game, ex: Explore, a: Analysis, c: real): (r: Outcome<nat>)
    ensures r.Ok? <==> |a.children| > 0
    ensures r.Ok? ==> r.value < |a.children|
    ensures r.Ok? ==> forall j :: 0 <= j < |a.children| ==>
      !Below(UcbOf(g, ex, a, r.value, c), UcbOf(g, ex, a, j, c))
    ensures r.Ok? ==> forall j :: r.value < j < |a.children| ==>
      Below(UcbOf(g, ex, a, j, c), UcbOf(g, ex, a, r.value, c))
  {
    var kids := ForceAll(g, a.children);
    if |kids| == 0 then Panic
    else
      var s := ChildScores(g, ex, kids, a.visits, c);
      assert forall j :: 0 <= j < |a.children| ==> s[j] == UcbOf(g, ex, a, j, c);
      Ok(LastMax(s))
  }

  /** The score `argmax(c)` gives candidate `j` of `a`, once expanded. */
  function UcbOf(g: Game, ex: Explore, a: Analysis, j: nat, c: real): Score
    requires j < |a.children|
  {
    Ucb(g, ex, Expand(g, a.children[j]).node, a.visits, c)
  }

  /** A candidate never visited outranks every visited one: when some
      candidate has no visit, `argmax` picks the last such candidate. */
  lemma ArgMaxPrefersUnvisited(g: Game, ex: Explore, a: Analysis, c: real, j: nat)
    requires j < |a.children| && Expand(g, a.children[j]).node.visits == 0
    ensures var i := ArgMax(g, ex, a, c).value;
      && Expand(g, a.children[i]).node.visits == 0
      && forall k :: i < k < |a.children| ==> Expand(g, a.children[k]).node.visits > 0
  {
    var kids := ForceAll(g, a.children);
    var s := ChildScores(g, ex, kids, a.visits, c);
    var i := LastMax(s);
    assert s[j] == Inf;
    assert !Below(s[i], s[j]);
    forall k | i < k < |a.children| ensures Expand(g, a.children[k]).node.visits > 0 {
      assert Below(s[k], s[i]);
    }
  }

  /** The policy score of every expanded candidate (`probabilities`). */
  function Probabilities(t: Tools, kids: seq<Candidate>): (p: seq<Score>)
    requires forall i :: 0 <= i < |kids| ==> kids[i].Expanded?
    ensures |p| == |kids|
    ensures forall i :: 0 <= i < |kids| ==> p[i].Finite? && p[i].r == t.policy(kids[i].node.encoding)
  {
    seq(|kids|, i requires 0 <= i < |kids| => Finite(t.policy(kids[i].node.encoding)))
  }

  /** The move `rollout` plays: White takes the last greatest policy score,
      Black the first least. */
  function Pick(side: Color, p: seq<Score>): (i: nat)
    requires |p| > 0
    ensures i < |p|
    ensures side == White ==> forall j :: 0 <= j < |p| ==> !Below(p[i], p[j])
    ensures side == White ==> forall j :: i < j < |p| ==> Below(p[j], p[i])
    ensures side == Black ==> forall j :: 0 <= j < |p| ==> !Below(p[j], p[i])
    ensures side == Black ==> forall j :: 0 <= j < i ==> Below(p[i], p[j])
  {
    match side
    case White => LastMax(p)
    case Black => FirstMin(p)
  }

  // ---------------------------------------------------------------------
  // Well-formed trees and growth
  // ---------------------------------------------------------------------

  /** Every node agrees with the rules: its encoding is its position's,
      and its candidates are the positions one move away, in order. */
  ghost predicate WellFormed(g: Game, a: Analysis)
    decreases a
  {
    && a.encoding == g.encode(a.state)
    && |a.children| == |g.branch(a.state)|
    && forall i :: 0 <= i < |a.children| ==> Fitting(g, a.children[i], g.branch(a.state)[i])
  }

  /** The candidate stands for position `s`. */
  ghost predicate Fitting(g: Game, c: Candidate, s: State)
    decreases c
  {
    match c
    case Waiting(s') => s' == s
    case Expanded(x) => x.state == s && WellFormed(g, x)
  }

  lemma FromStateWellFormed(g: Game, s: State)
    ensures WellFormed(g, FromState(g, s))
  {
  }

  lemma ForceAllWellFormed(g: Game, a: Analysis)
    requires WellFormed(g, a)
    ensures var kids := ForceAll(g, a.children);
      forall i :: 0 <= i < |kids| ==> Fitting(g, kids[i], g.branch(a.state)[i])
  {
    var kids := ForceAll(g, a.children);
    forall i | 0 <= i < |kids| ensures Fitting(g, kids[i], g.branch(a.state)[i]) {
      assert Fitting(g, a.children[i], g.branch(a.state)[i]);
      if a.children[i].Waiting? {
        FromStateWellFormed(g, a.children[i].state);
      }
    }
  }

  /** `b` is `a` with some candidates expanded and nothing else changed:
      the same position, encoding, counters and number of candidates; a
      waiting candidate stays waiting or becomes a node grown from its
      expansion, and an expanded one is grown in place. */
  ghost predicate Grows(g: Game, a: Analysis, b: Analysis)
    decreases b
  {
    && b.state == a.state && b.encoding == a.encoding
    && b.visits == a.visits && b.wins == a.wins
    && |b.children| == |a.children|
    && forall i :: 0 <= i < |a.children| ==> ChildGrows(g, a.children[i], b.children[i])
  }

  ghost predicate ChildGrows(g: Game, c: Candidate, d: Candidate)
    decreases d
  {
    match d
    case Waiting(_) => c == d
    case Expanded(y) =>
      match c
      case Waiting(s) => Grows(g, FromState(g, s), y)
      case Expanded(x) => Grows(g, x, y)
  }

  lemma {:induction false} GrowsReflexive(g: Game, a: Analysis)
    ensures Grows(g, a, a)
    decreases a
  {
    forall i | 0 <= i < |a.children| ensures ChildGrows(g, a.children[i], a.children[i]) {
      if a.children[i].Expanded? {
        GrowsReflexive(g, a.children[i].node);
      }
    }
  }

  /** Expanding a candidate grows it. */
  lemma ExpandGrows(g: Game, c: Candidate)
    ensures ChildGrows(g, c, Expand(g, c))
  {
    match c
    case Waiting(s) => GrowsReflexive(g, FromState(g, s));
    case Expanded(x) => GrowsReflexive(g, x);
  }

  lemma ForceAllGrows(g: Game, cs: seq<Candidate>)
    ensures forall i :: 0 <= i < |cs| ==> ChildGrows(g, cs[i], ForceAll(g, cs)[i])
  {
    forall i | 0 <= i < |cs| ensures ChildGrows(g, cs[i], ForceAll(g, cs)[i]) {
      ExpandGrows(g, cs[i]);
    }
  }

  // ---------------------------------------------------------------------
  // Rollout
  // ---------------------------------------------------------------------

  /** The playout `rollout` performs, on positions alone: a mated side to
      move scores 0 for White and 1 for Black, a draw scores 0, at depth 0
      the value head scores the position, and otherwise the playout
      continues from the position the policy head prefers for the side to
      move. An ongoing position with no move panics (`unwrap` of `None`). */
  function PlayOut(g: Game, t: Tools, s: State, depth: nat): Outcome<real>
    decreases depth
  {
    match g.status(s)
    case Won => Ok(if g.side(s) == White then 0.0 else 1.0)
    case Drawn => Ok(0.0)
    case Ongoing =>
      if depth == 0 then Ok(t.value(g.encode(s)))
      else
        var next := g.branch(s);
        if |next| == 0 then Panic
        else
          var p := seq(|next|, i requires 0 <= i < |next| => Finite(t.policy(g.encode(next[i]))));
          PlayOut(g, t, next[Pick(g.side(s), p)], depth - 1)
  }

  /** `Analysis::rollout`: the same playout on the tree. Scoring the
      candidates expands all of them, and the playout continues inside the
      chosen one, so the node comes back grown; no counter changes. */
  function Rollout(g: Game, t: Tools, a: Analysis, depth: nat): (r: Outcome<Visit>)
    ensures r.Ok? ==> Grows(g, a, r.value.node)
    decreases depth
  {
    GrowsReflexive(g, a);
    match g.status(a.state)
    case Won => Ok(Visit(a, if g.side(a.state) == White then 0.0 else 1.0))
    case Drawn => Ok(Visit(a, 0.0))
    case Ongoing =>
      if depth == 0 then Ok(Visit(a, t.value(a.encoding)))
      else
        var kids := ForceAll(g, a.children);
        var p := Probabilities(t, kids);
        if |p| == 0 then Panic
        else
          var i := Pick(g.side(a.state), p);
          match Rollout(g, t, kids[i].node, depth - 1)
          case Panic => Panic
          case Ok(v) =>
            ForceAllGrows(g, a.children);
            Ok(Visit(a.(children := kids[i := Expanded(v.node)]), v.result))
  }

  /** On a well-formed tree, `rollout` returns what the playout on
      positions returns, panics exactly when it panics, and leaves the
      tree well formed: the cached nodes change nothing. */
  lemma {:induction false} RolloutFollowsPlayOut(g: Game, t: Tools, a: Analysis, depth: nat)
    requires WellFormed(g, a)
    ensures var r := Rollout(g, t, a, depth);
      var p := PlayOut(g, t, a.state, depth);
      && (r.Ok? <==> p.Ok?)
      && (r.Ok? ==> r.value.result == p.value && WellFormed(g, r.value.node))
    decreases depth
  {
    if g.status(a.state) == Ongoing && depth > 0 && |a.children| > 0 {
      var kids := ForceAll(g, a.children);
      var next := g.branch(a.state);
      ForceAllWellFormed(g, a);
      var p := Probabilities(t, kids);
      var q := seq(|next|, i requires 0 <= i < |next| => Finite(t.policy(g.encode(next[i]))));
      assert p == q by {
        forall i | 0 <= i < |p| ensures p[i] == q[i] {
          assert Fitting(g, kids[i], next[i]);
          assert WellFormed(g, kids[i].node);
        }
      }
      var i := Pick(g.side(a.state), p);
      assert Fitting(g, kids[i], next[i]);
      RolloutFollowsPlayOut(g, t, kids[i].node, depth - 1);
      var r := Rollout(g, t, kids[i].node, depth - 1);
      if r.Ok? {
        var b := a.(children := kids[i := Expanded(r.value.node)]);
        forall k | 0 <= k < |b.children| ensures Fitting(g, b.children[k], next[k]) {
          if k != i {
            assert b.children[k] == kids[k];
          }
        }
      }
    }
  }

  /** A game in which every ongoing position has a move. */
  ghost predicate Playable(g: Game)
  {
    forall s :: g.status(s) == Ongoing ==> |g.branch(s)| > 0
  }

  /** In a playable game the playout never panics. */
  lemma {:induction false} PlayOutSucceeds(g: Game, t: Tools, s: State, depth: nat)
    requires Playable(g)
    ensures PlayOut(g, t, s, depth).Ok?
    decreases depth
  {
    if g.status(s) == Ongoing && depth > 0 {
      var next := g.branch(s);
      var p := seq(|next|, i requires 0 <= i < |next| => Finite(t.policy(g.encode(next[i]))));
      PlayOutSucceeds(g, t, next[Pick(g.side(s), p)], depth - 1);
    }
  }

  // ---------------------------------------------------------------------
  // Simulation
  // ---------------------------------------------------------------------

  /** The depth of the expanded part of the tree below `a`. */
  function Height(a: Analysis): nat
    decreases a, 1
  {
    HeightUpTo(a, |a.children|)
  }

  /** The depth of the expanded part below the first `k` candidates. */
  function HeightUpTo(a: Analysis, k: nat): nat
    requires k <= |a.children|
    decreases a, 0, k
  {
    if k == 0 then 0
    else
      var h := HeightUpTo(a, k - 1);
      match a.children[k - 1]
      case Waiting(_) => h
      case Expanded(x) => if h < 1 + Height(x) then 1 + Height(x) else h
  }

  lemma {:induction false} HeightAbove(a: Analysis, k: nat, i: nat)
    requires i < k <= |a.children| && a.children[i].Expanded?
    ensures Height(a.children[i].node) < HeightUpTo(a, k)
    decreases k
  {
    if i < k - 1 {
      HeightAbove(a, k - 1, i);
    }
  }

  /** Descending into a candidate reaches a lower tree, or a node built
      just now, which has no expanded candidate. */
  lemma DescentLowers(g: Game, a: Analysis, i: nat)
    requires i < |a.children|
    ensures a.children[i].Expanded? ==> Height(a.children[i].node) < Height(a)
    ensures a.children[i].Waiting? ==> Height(Expand(g, a.children[i]).node) == 0
  {
    if a.children[i].Expanded? {
      HeightAbove(a, |a.children|, i);
    } else {
      FreshHeight(FromState(g, a.children[i].state), |g.branch(a.children[i].state)|);
    }
  }

  lemma {:induction false} FreshHeight(a: Analysis, k: nat)
    requires k <= |a.children| && forall i :: 0 <= i < |a.children| ==> a.children[i].Waiting?
    ensures HeightUpTo(a, k) == 0
    decreases k
  {
    if k > 0 {
      FreshHeight(a, k - 1);
    }
  }

  /** `Analysis::simulate`: a node never visited is scored by `rollout`;
      otherwise the search descends into the candidate `argmax(2.0)`
      picks. Either way the node's visits grow by one and its wins by the
      result, which is handed back to the parent. */
  function Simulate(g: Game, t: Tools, ex: Explore, a: Analysis, depth: nat): (r: Outcome<Visit>)
    ensures r.Ok? ==> var b := r.value.node;
      && b.visits == a.visits + 1 && b.wins == a.wins + r.value.result
      && b.state == a.state && b.encoding == a.encoding && |b.children| == |a.children|
    decreases Height(a), a.visits
  {
    if a.visits == 0 then
      match Rollout(g, t, a, depth)
      case Panic => Panic
      case Ok(v) => Ok(Visit(v.node.(visits := 1, wins := v.node.wins + v.result), v.result))
    else
      match ArgMax(g, ex, a, 2.0)
      case Panic => Panic
      case Ok(i) =>
        var kids := ForceAll(g, a.children);
        DescentLowers(g, a, i);
        match Simulate(g, t, ex, kids[i].node, depth)
        case Panic => Panic
        case Ok(v) =>
          Ok(Visit(a.(children := kids[i := Expanded(v.node)], visits := a.visits + 1, wins := a.wins + v.result),
                   v.result))
  }

  /** At a visited node, `simulate` descends into the candidate `argmax`
      picks and no other. It succeeds exactly when the simulation of that
      candidate does, hands back that simulation's result unchanged and
      keeps that simulation's node in the candidate's place; every other
      candidate is at most expanded, with no statistic changed. With the
      contract of `Simulate`, one visit and the same result are added at
      every node of the path. */
  lemma SimulateAlongArgMax(g: Game, t: Tools, ex: Explore, a: Analysis, depth: nat)
    requires a.visits > 0
    ensures var r := Simulate(g, t, ex, a, depth);
      var pick := ArgMax(g, ex, a, 2.0);
      && (r.Ok? <==> pick.Ok? && Simulate(g, t, ex, Expand(g, a.children[pick.value]).node, depth).Ok?)
      && (r.Ok? ==>
            var sub := Simulate(g, t, ex, Expand(g, a.children[pick.value]).node, depth).value;
            && r.value.result == sub.result
            && r.value.node.children[pick.value] == Expanded(sub.node)
            && forall j :: 0 <= j < |a.children| && j != pick.value ==>
                 r.value.node.children[j] == Expand(g, a.children[j]))
  {
    var r := Simulate(g, t, ex, a, depth);
    if r.Ok? {
      var i := ArgMax(g, ex, a, 2.0).value;
      var kids := ForceAll(g, a.children);
      var v := Simulate(g, t, ex, kids[i].node, depth).value;
      assert r.value.node.children == kids[i := Expanded(v.node)];
      forall j | 0 <= j < |a.children| && j != i
        ensures r.value.node.children[j] == Expand(g, a.children[j])
      {
        assert r.value.node.children[j] == kids[j];
      }
    }
  }

  /** The node whose playout `simulate` scores: follow `argmax(2.0)` from
      `a` down to the first node never visited; a visited node without a
      candidate on the way panics. */
  function Frontier(g: Game, ex: Explore, a: Analysis): (r: Outcome<Analysis>)
    ensures r.Ok? ==> r.value.visits == 0
    decreases Height(a), a.visits
  {
    if a.visits == 0 then Ok(a)
    else
      match ArgMax(g, ex, a, 2.0)
      case Panic => Panic
      case Ok(i) =>
        DescentLowers(g, a, i);
        Frontier(g, ex, Expand(g, a.children[i]).node)
  }

  /** On a well-formed tree, `simulate` returns the playout of the frontier
      node's position, and succeeds exactly when the frontier is reached
      and its playout succeeds. */
  lemma {:induction false} SimulateReachesFrontier(g: Game, t: Tools, ex: Explore, a: Analysis, depth: nat)
    requires WellFormed(g, a)
    ensures var r := Simulate(g, t, ex, a, depth);
      var f := Frontier(g, ex, a);
      && (r.Ok? <==> f.Ok? && PlayOut(g, t, f.value.state, depth).Ok?)
      && (r.Ok? ==> r.value.result == PlayOut(g, t, f.value.state, depth).value)
    decreases Height(a), a.visits
  {
    if a.visits == 0 {
      SimulateKeepsWellFormed(g, t, ex, a, depth);
    } else if |a.children| > 0 {
      var i := ArgMax(g, ex, a, 2.0).value;
      var kids := ForceAll(g, a.children);
      DescentLowers(g, a, i);
      ForceAllWellFormed(g, a);
      assert Fitting(g, kids[i], g.branch(a.state)[i]);
      SimulateReachesFrontier(g, t, ex, kids[i].node, depth);
    }
  }

  /** A visited node with no candidate makes `argmax` panic. */
  lemma VisitedLeafPanics(g: Game, t: Tools, ex: Explore, a: Analysis, depth: nat)
    requires a.visits > 0 && |a.children| == 0
    ensures Simulate(g, t, ex, a, depth) == Panic
  {
  }

  /** A finished game position (mate or draw, no move) can be simulated
      once, but simulating it a second time panics. */
  lemma TerminalRevisitPanics(g: Game, t: Tools, ex: Explore, s: State, depth: nat)
    requires g.status(s) != Ongoing && |g.branch(s)| == 0
    ensures var first := Simulate(g, t, ex, FromState(g, s), depth);
      first.Ok? && Simulate(g, t, ex, first.value.node, depth) == Panic
  {
    var first := Simulate(g, t, ex, FromState(g, s), depth);
    assert first.Ok?;
    VisitedLeafPanics(g, t, ex, first.value.node, depth);
  }

  /** The visits of a candidate: none while waiting. */
  function VisitsOf(c: Candidate): nat
  {
    match c
    case Waiting(_) => 0
    case Expanded(a) => a.visits
  }

  /** Total visits of the candidates. */
  function ChildVisits(cs: seq<Candidate>): nat
    decreases |cs|
  {
    if |cs| == 0 then 0 else ChildVisits(cs[..|cs| - 1]) + VisitsOf(cs[|cs| - 1])
  }

  /** The visit bookkeeping of the search: a node visited at all was
      scored once by its own rollout and once more for every visit that
      went on to a candidate, so its visits are one more than its
      candidates' visits together; a node never visited has no visited
      candidate. The same holds at every expanded node. */
  ghost predicate Balanced(a: Analysis)
    decreases a
  {
    && a.visits == (if a.visits == 0 then 0 else 1) + ChildVisits(a.children)
    && forall i :: 0 <= i < |a.children| ==> a.children[i].Expanded? ==> Balanced(a.children[i].node)
  }

  lemma {:induction false} ChildVisitsEqual(cs: seq<Candidate>, ds: seq<Candidate>)
    requires |cs| == |ds| && forall i :: 0 <= i < |cs| ==> VisitsOf(cs[i]) == VisitsOf(ds[i])
    ensures ChildVisits(cs) == ChildVisits(ds)
    decreases |cs|
  {
    if |cs| > 0 {
      ChildVisitsEqual(cs[..|cs| - 1], ds[..|ds| - 1]);
    }
  }

  /** Raising one candidate's visits by one raises the total by one. */
  lemma {:induction false} ChildVisitsBump(cs: seq<Candidate>, i: nat, d: Candidate)
    requires i < |cs| && VisitsOf(d) == VisitsOf(cs[i]) + 1
    ensures ChildVisits(cs[i := d]) == ChildVisits(cs) + 1
    decreases |cs|
  {
    var n := |cs| - 1;
    assert cs[i := d][..n] == if i < n then cs[..n][i := d] else cs[..n];
    if i < n {
      ChildVisitsBump(cs[..n], i, d);
    }
  }

  lemma FromStateBalanced(g: Game, s: State)
    ensures Balanced(FromState(g, s))
  {
    var a := FromState(g, s);
    ChildVisitsEqual(a.children, seq(|a.children|, i => Waiting(s)));
    ZeroChildVisits(a.children);
  }

  lemma {:induction false} ZeroChildVisits(cs: seq<Candidate>)
    requires forall i :: 0 <= i < |cs| ==> cs[i].Waiting?
    ensures ChildVisits(cs) == 0
    decreases |cs|
  {
    if |cs| > 0 {
      ZeroChildVisits(cs[..|cs| - 1]);
    }
  }

  /** Growing keeps every counter, so it keeps the bookkeeping. */
  lemma {:induction false} GrowsKeepsBalanced(g: Game, a: Analysis, b: Analysis)
    requires Grows(g, a, b) && Balanced(a)
    ensures Balanced(b)
    decreases b
  {
    forall i | 0 <= i < |a.children| ensures VisitsOf(b.children[i]) == VisitsOf(a.children[i]) {
      assert ChildGrows(g, a.children[i], b.children[i]);
      match b.children[i]
      case Waiting(_) =>
      case Expanded(y) =>
        match a.children[i]
        case Waiting(s) => assert Grows(g, FromState(g, s), y);
        case Expanded(x) => assert Grows(g, x, y);
    }
    ChildVisitsEqual(a.children, b.children);
    forall i | 0 <= i < |b.children| && b.children[i].Expanded? ensures Balanced(b.children[i].node) {
      assert ChildGrows(g, a.children[i], b.children[i]);
      match a.children[i]
      case Waiting(s) =>
        FromStateBalanced(g, s);
        GrowsKeepsBalanced(g, FromState(g, s), b.children[i].node);
      case Expanded(x) =>
        GrowsKeepsBalanced(g, x, b.children[i].node);
    }
  }

  /** `simulate` keeps the visit bookkeeping: at every expanded node, the
      visits stay one more than the candidates' visits together. */
  lemma {:induction false} SimulateKeepsBalanced(g: Game, t: Tools, ex: Explore, a: Analysis, depth: nat)
    requires Balanced(a)
    ensures var r := Simulate(g, t, ex, a, depth);
      r.Ok? ==> Balanced(r.value.node)
    decreases Height(a), a.visits
  {
    var r := Simulate(g, t, ex, a, depth);
    if r.Ok? {
      if a.visits == 0 {
        var v := Rollout(g, t, a, depth).value;
        GrowsKeepsBalanced(g, a, v.node);
      } else {
        var i := ArgMax(g, ex, a, 2.0).value;
        var kids := ForceAll(g, a.children);
        DescentLowers(g, a, i);
        forall k | 0 <= k < |kids| ensures VisitsOf(kids[k]) == VisitsOf(a.children[k]) {
        }
        ChildVisitsEqual(a.children, kids);
        var child := kids[i].node;
        assert Balanced(child) by {
          if a.children[i].Waiting? {
            FromStateBalanced(g, a.children[i].state);
          }
        }
        SimulateKeepsBalanced(g, t, ex, child, depth);
        var v := Simulate(g, t, ex, child, depth).value;
        ChildVisitsBump(kids, i, Expanded(v.node));
        var b := r.value.node;
        assert b.children == kids[i := Expanded(v.node)];
        forall k | 0 <= k < |b.children| && b.children[k].Expanded? ensures Balanced(b.children[k].node) {
          if k != i && a.children[k].Waiting? {
            FromStateBalanced(g, a.children[k].state);
          }
        }
      }
    }
  }

  /** On a well-formed tree `simulate` keeps the tree well formed, and at a
      node never visited it returns the playout of the node's position. */
  lemma {:induction false} SimulateKeepsWellFormed(g: Game, t: Tools, ex: Explore, a: Analysis, depth: nat)
    requires WellFormed(g, a)
    ensures var r := Simulate(g, t, ex, a, depth);
      && (r.Ok? ==> WellFormed(g, r.value.node))
      && (a.visits == 0 ==> (r.Ok? <==> PlayOut(g, t, a.state, depth).Ok?))
      && (a.visits == 0 && r.Ok? ==> r.value.result == PlayOut(g, t, a.state, depth).value)
    decreases Height(a), a.visits
  {
    var r := Simulate(g, t, ex, a, depth);
    if a.visits == 0 {
      RolloutFollowsPlayOut(g, t, a, depth);
    } else if r.Ok? {
      var i := ArgMax(g, ex, a, 2.0).value;
      var kids := ForceAll(g, a.children);
      var next := g.branch(a.state);
      DescentLowers(g, a, i);
      ForceAllWellFormed(g, a);
      assert Fitting(g, kids[i], next[i]);
      SimulateKeepsWellFormed(g, t, ex, kids[i].node, depth);
      var b := r.value.node;
      forall k | 0 <= k < |b.children| ensures Fitting(g, b.children[k], next[k]) {
        if k != i {
          assert b.children[k] == kids[k];
        }
      }
    }
  }

  // ---------------------------------------------------------------------
  // Advancing the root
  // ---------------------------------------------------------------------

  /** `Analysis::advance`: the root is replaced by the last candidate of
      greatest `ucb(visits, 0.0)`, after every candidate was expanded (so
      `take` cannot panic); with no candidate, `unwrap` panics. */
  function Advance(g: Game, ex: Explore, a: Analysis): (r: Outcome<Analysis>)
    ensures r.Ok? <==> |a.children| > 0
  {
    var kids := ForceAll(g, a.children);
    if |kids| == 0 then Panic
    else
      var i := LastMax(ChildScores(g, ex, kids, a.visits, 0.0));
      TakeAfterExpand(g, a.children[i]);
      Take(kids[i])
  }

  /** The new root is one of the old root's candidates, expanded, whose
      score is at least every sibling's and strictly above every later
      sibling's; on a well-formed tree it is well formed and stands for a
      position one move away. */
  lemma AdvanceToBest(g: Game, ex: Explore, a: Analysis)
    requires |a.children| > 0
    ensures var root := Advance(g, ex, a).value;
      exists i :: 0 <= i < |a.children| && root == Expand(g, a.children[i]).node
        && (forall j :: 0 <= j < |a.children| ==>
              !Below(Ucb(g, ex, root, a.visits, 0.0), Ucb(g, ex, Expand(g, a.children[j]).node, a.visits, 0.0)))
        && (forall j :: i < j < |a.children| ==>
              Below(Ucb(g, ex, Expand(g, a.children[j]).node, a.visits, 0.0), Ucb(g, ex, root, a.visits, 0.0)))
    ensures WellFormed(g, a) ==> var root := Advance(g, ex, a).value;
      WellFormed(g, root) && root.state in g.branch(a.state)
  {
    var kids := ForceAll(g, a.children);
    var s := ChildScores(g, ex, kids, a.visits, 0.0);
    var i := LastMax(s);
    var root := Advance(g, ex, a).value;
    assert root == kids[i].node;
    assert forall j :: 0 <= j < |a.children| ==> s[j] == Ucb(g, ex, Expand(g, a.children[j]).node, a.visits, 0.0);
    if WellFormed(g, a) {
      ForceAllWellFormed(g, a);
      assert Fitting(g, kids[i], g.branch(a.state)[i]);
    }
  }
}
