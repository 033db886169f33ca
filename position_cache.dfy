/** `PositionAnalysis` of `src/engine/tools.rs`: a search node that keeps
    the evaluator's answers for its position in two optional caches, so
    each head is asked at most once per position. */
module PositionCache {
  import opened Common
  import opened Vectors
  import opened Mcts

  /** The answer of a memoised query: the cached value when there is one,
      otherwise the value just computed. */
  function Lookup(cache: Option<real>, computed: real): (r: real)
    ensures cache.Some? ==> r == cache.value
    ensures cache.None? ==> r == computed
  {
    match cache
    case Some(p) => p
    case None => computed
  }

  class PositionAnalysis {
    var state: State
    var encoding: Vector
    var visits: nat
    var wins: real
    var policy: Option<real>
    var value: Option<real>

    /** `PositionAnalysis::from_state`: no visit, no win, both caches
        empty. */
    constructor (g: Game, s: State)
      ensures state == s && encoding == g.encode(s)
      ensures visits == 0 && wins == 0.0
      ensures policy == None && value == None
    {
      state := s;
      encoding := g.encode(s);
      visits := 0;
      wins := 0.0;
      policy := None;
      value := None;
    }

    /** `PositionAnalysis::policy`: the cached policy score, or the policy
        head's score of the encoding, which is then cached. */
    method Policy(t: Tools) returns (p: real)
      modifies this
      ensures p == Lookup(old(policy), t.policy(encoding))
      ensures policy == Some(p)
      ensures value == old(value) && state == old(state) && encoding == old(encoding)
      ensures visits == old(visits) && wins == old(wins)
    {
      if policy.Some? {
        p := policy.value;
      } else {
        p := t.policy(encoding);
        policy := Some(p);
      }
    }

    /** `PositionAnalysis::value` as written: it reads and fills the POLICY
        cache and asks the POLICY head, so it answers what `policy` answers
        and never touches the value cache. */
    method ValueAsWritten(t: Tools) returns (v: real)
      modifies this
      ensures v == Lookup(old(policy), t.policy(encoding))
      ensures policy == Some(v)
      ensures value == old(value) && state == old(state) && encoding == old(encoding)
      ensures visits == old(visits) && wins == old(wins)
    {
      if policy.Some? {
        v := policy.value;
      } else {
        v := t.policy(encoding);
        policy := Some(v);
      }
    }

    /** `value` as evidently intended: the cached value score, or the value
        head's score of the encoding, which is then cached; the policy
        cache is left alone. */
    method Value(t: Tools) returns (v: real)
      modifies this
      ensures v == Lookup(old(value), t.value(encoding))
      ensures value == Some(v)
      ensures policy == old(policy) && state == old(state) && encoding == old(encoding)
      ensures visits == old(visits) && wins == old(wins)
    {
      if value.Some? {
        v := value.value;
      } else {
        v := t.value(encoding);
        value := Some(v);
      }
    }
  }

  /** The defect of `value` as written, on a fresh node: when the two heads
      score the position differently, `value` answers the policy head's
      score, while the corrected `Value` answers the value head's. */
  method ValueAsWrittenAsksPolicy(g: Game, s: State, t: Tools) returns (asWritten: real, intended: real)
    requires t.policy(g.encode(s)) != t.value(g.encode(s))
    ensures asWritten == t.policy(g.encode(s)) && asWritten != t.value(g.encode(s))
    ensures intended == t.value(g.encode(s))
  {
    var pa := new PositionAnalysis(g, s);
    asWritten := pa.ValueAsWritten(t);
    var pb := new PositionAnalysis(g, s);
    intended := pb.Value(t);
  }
}
