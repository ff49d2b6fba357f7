/**
 The simulation's agent: an identifier plus two accumulators, `c` (what the
 agent earned while cooperating) and `total` (what it earned overall), and the
 iterated prisoner's dilemma an agent plays against its network successors.
 Doubles are modelled as `real`, so rounding is not modelled.
 */
module Agents {
  import opened AgentIds

  datatype Agent = Agent(id: AgentId, c: real, total: real)

  /** The identifier-only constructor: every fresh agent starts with c = 100, total = 200. */
  function NewAgent(id: AgentId): (a: Agent)
    ensures a.id == id && a.c == 100.0 && a.total == 200.0
    ensures Probability(a) == 0.5
  {
    Agent(id, 100.0, 200.0)
  }

  /** The three-argument constructor: stores exactly the state it is given. */
  function NewAgentWith(id: AgentId, c: real, total: real): (a: Agent)
    ensures a.id == id && a.c == c && a.total == total
    ensures a == Set(NewAgent(id), id.currentRank, c, total)
  {
    Agent(id, c, total)
  }

  /** The setter: new current rank and accumulators; the identity triple stays. */
  function Set(a: Agent, currentRank: Int32, c: real, total: real): (r: Agent)
    ensures r.id.Key() == a.id.Key()
    ensures r.id.currentRank == currentRank && r.c == c && r.total == total
  {
    Agent(a.id.(currentRank := currentRank), c, total)
  }

  /** Setting an agent's own values changes nothing, and a second set overrides the first. */
  lemma SetRestoresAndOverrides(a: Agent, r1: Int32, c1: real, t1: real, r2: Int32, c2: real, t2: real)
    ensures Set(a, a.id.currentRank, a.c, a.total) == a
    ensures Set(Set(a, r1, c1, t1), r2, c2, t2) == Set(a, r2, c2, t2)
  {
  }

  // ---------------------------------------------------------------------------
  // Cooperation

  predicate IsDraw(d: real) {
    0.0 <= d < 1.0
  }

  predicate AreDraws(draws: seq<real>) {
    forall k :: 0 <= k < |draws| ==> IsDraw(draws[k])
  }

  /**
   Whether the agent cooperates, given the uniform draw in [0, 1) the random
   generator returned. With total = 0 the quotient c/total is +infinity,
   NaN or -infinity in IEEE arithmetic, and the comparison is decided by that.
   */
  function Cooperate(a: Agent, draw: real): (yes: bool)
    requires IsDraw(draw)
    ensures yes <==> draw < Probability(a)
  {
    if a.total == 0.0 then a.c > 0.0
    else draw < a.c / a.total
  }

  /** The probability of cooperating: c / total, cut to [0, 1]. */
  function Probability(a: Agent): (p: real)
    ensures 0.0 <= p <= 1.0
    ensures a.total != 0.0 && 0.0 <= a.c / a.total <= 1.0 ==> p == a.c / a.total
  {
    if a.total == 0.0 then (if a.c > 0.0 then 1.0 else 0.0)
    else if a.c / a.total < 0.0 then 0.0
    else if a.c / a.total > 1.0 then 1.0
    else a.c / a.total
  }

  /** With a positive total the decision needs no division: draw × total < c. */
  lemma CooperateWithoutDivision(a: Agent, d: real)
    requires IsDraw(d)
    requires a.total > 0.0
    ensures Cooperate(a, d) <==> d * a.total < a.c
  {
    var q := a.c / a.total;
    assert q * a.total == a.c;
    if d < q {
      assert d * a.total < q * a.total;
    } else {
      assert d * a.total >= q * a.total;
    }
  }

  /**
   The identifier-only constructor starts an agent at c = 100, total = 200,
   so a fresh agent cooperates with probability 1/2; the three-argument
   constructor keeps exactly the state it is given.
   */
  lemma FreshAgentCooperatesHalfTheTime(id: AgentId, d: real, c: real, total: real)
    requires IsDraw(d)
    ensures NewAgent(id).id == id && NewAgent(id).c == 100.0 && NewAgent(id).total == 200.0
    ensures NewAgentWith(id, c, total) == Agent(id, c, total)
    ensures Probability(NewAgent(id)) == 0.5
    ensures Cooperate(NewAgent(id), d) <==> d < 0.5
  {
  }

  // ---------------------------------------------------------------------------
  // The game

  /** The payoff to this agent for its decision `mine` against the opponent's `theirs`. */
  function Payoff(mine: bool, theirs: bool): (r: real)
    ensures r in {1.0, 3.0, 7.0, 10.0}
    ensures mine && theirs ==> r == 7.0
    ensures !mine && !theirs ==> r == 3.0
  {
    if mine then (if theirs then 7.0 else 1.0)
    else (if theirs then 10.0 else 3.0)
  }

  /**
   The payoff table is a prisoner's dilemma: temptation > reward > punishment
   > sucker's payoff, defection pays more whatever the opponent does, and
   mutual cooperation beats taking turns at exploiting each other.
   */
  lemma PayoffIsPrisonersDilemma()
    ensures Payoff(false, true) > Payoff(true, true) > Payoff(false, false) > Payoff(true, false)
    ensures forall theirs :: Payoff(false, theirs) > Payoff(true, theirs)
    ensures 2.0 * Payoff(true, true) > Payoff(false, true) + Payoff(true, false)
  {
  }

  /** One successor as `play` sees it: the connecting edge's weight and confidence, and the successor. */
  datatype Encounter = Encounter(weight: real, confidence: Int32, opponent: Agent)

  /** A payoff as it is accumulated: payoff × confidence × confidence × weight. */
  function Scaled(payoff: real, e: Encounter): real {
    payoff * e.confidence as real * e.confidence as real * e.weight
  }

  lemma ScaledNonNegative(payoff: real, e: Encounter)
    requires payoff >= 0.0
    ensures e.weight >= 0.0 ==> Scaled(payoff, e) >= 0.0
  {
    var f := e.confidence as real;
    assert f * f >= 0.0;
    assert payoff * f * f == payoff * (f * f);
  }

  predicate NonNegativeWeights(es: seq<Encounter>) {
    forall k :: 0 <= k < |es| ==> es[k].weight >= 0.0
  }

  datatype Accrual = Accrual(c: real, total: real)

  /**
   What a round of encounters adds to c and to total. Encounter k consumes two
   draws: draws[2k] decides this agent, draws[2k+1] the opponent. All decisions
   of this agent use its state from before the round.
   */
  function Accrued(self: Agent, es: seq<Encounter>, draws: seq<real>): (r: Accrual)
    requires |draws| == 2 * |es|
    requires AreDraws(draws)
    ensures |es| == 0 ==> r == Accrual(0.0, 0.0)
    ensures NonNegativeWeights(es) ==> 0.0 <= r.c <= r.total
    decreases |es|
  {
    if |es| == 0 then Accrual(0.0, 0.0)
    else
      var n := |es| - 1;
      var prev := Accrued(self, es[..n], draws[..2 * n]);
      var mine := Cooperate(self, draws[2 * n]);
      var gain := Scaled(Payoff(mine, Cooperate(es[n].opponent, draws[2 * n + 1])), es[n]);
      ScaledNonNegative(Payoff(mine, Cooperate(es[n].opponent, draws[2 * n + 1])), es[n]);
      Accrual(if mine then prev.c + gain else prev.c, prev.total + gain)
  }

  /** `play`: the encounters' gains are added to c and total once, after the whole round. */
  function Play(self: Agent, es: seq<Encounter>, draws: seq<real>): (r: Agent)
    requires |draws| == 2 * |es|
    requires AreDraws(draws)
    ensures r.id == self.id
    ensures |es| == 0 ==> r == self
    ensures NonNegativeWeights(es) ==> self.c <= r.c && self.total <= r.total
    ensures NonNegativeWeights(es) ==> r.c - self.c <= r.total - self.total
  {
    var acc := Accrued(self, es, draws);
    NewAgentWith(self.id, self.c + acc.c, self.total + acc.total)
  }

  /**
   The loop `play` runs: two running sums, one encounter at a time, written
   back once at the end. It computes the same agent as `Play`.
   */
  method PlayLoop(self: Agent, es: seq<Encounter>, draws: seq<real>) returns (r: Agent)
    requires |draws| == 2 * |es|
    requires AreDraws(draws)
    ensures r == Play(self, es, draws)
  {
    var cPayoff := 0.0;
    var totalPayoff := 0.0;
    var k := 0;
    while k < |es|
      invariant 0 <= k <= |es|
      invariant Accrual(cPayoff, totalPayoff) == Accrued(self, es[..k], draws[..2 * k])
    {
      var iCooperated := Cooperate(self, draws[2 * k]);
      var payoff := Payoff(iCooperated, Cooperate(es[k].opponent, draws[2 * k + 1]));
      var scaled := Scaled(payoff, es[k]);
      if iCooperated {
        cPayoff := cPayoff + scaled;
      }
      totalPayoff := totalPayoff + scaled;
      assert es[..k + 1][..k] == es[..k];
      assert draws[..2 * (k + 1)][..2 * k] == draws[..2 * k];
      k := k + 1;
    }
    assert es[..|es|] == es;
    assert draws[..2 * |es|] == draws;
    r := NewAgentWith(self.id, self.c + cPayoff, self.total + totalPayoff);
  }

  /** The last encounter of a round adds its scaled payoff to total, and to c when this agent cooperated. */
  lemma AccruedStep(self: Agent, es: seq<Encounter>, draws: seq<real>)
    requires |draws| == 2 * |es| && |es| > 0
    requires AreDraws(draws)
    ensures var n := |es| - 1;
            var prev := Accrued(self, es[..n], draws[..2 * n]);
            var mine := Cooperate(self, draws[2 * n]);
            var gain := Scaled(Payoff(mine, Cooperate(es[n].opponent, draws[2 * n + 1])), es[n]);
            Accrued(self, es, draws) == Accrual(if mine then prev.c + gain else prev.c, prev.total + gain)
  {
  }

  /**
   Gains are additive over a split of the successor list: because c and total
   are written only after the loop, every encounter is decided against the
   same pre-play state, so playing es1 + es2 adds what es1 and es2 add separately.
   */
  lemma {:induction false} AccruedSplits(self: Agent, es1: seq<Encounter>, es2: seq<Encounter>, d1: seq<real>, d2: seq<real>)
    requires |d1| == 2 * |es1| && |d2| == 2 * |es2|
    requires AreDraws(d1) && AreDraws(d2)
    ensures AreDraws(d1 + d2)
    ensures Accrued(self, es1 + es2, d1 + d2).c == Accrued(self, es1, d1).c + Accrued(self, es2, d2).c
    ensures Accrued(self, es1 + es2, d1 + d2).total == Accrued(self, es1, d1).total + Accrued(self, es2, d2).total
    decreases |es2|
  {
    assert AreDraws(d1 + d2) by {
      forall k | 0 <= k < |d1 + d2|
        ensures IsDraw((d1 + d2)[k])
      {
        if k < |d1| { assert (d1 + d2)[k] == d1[k]; } else { assert (d1 + d2)[k] == d2[k - |d1|]; }
      }
    }
    if |es2| == 0 {
      assert es1 + es2 == es1;
      assert d1 + d2 == d1;
    } else {
      var n := |es2| - 1;
      var es := es1 + es2;
      var ds := d1 + d2;
      var m := |es| - 1;
      assert es[..m] == es1 + es2[..n];
      assert ds[..2 * m] == d1 + d2[..2 * n];
      assert es[m] == es2[n];
      assert ds[2 * m] == d2[2 * n] && ds[2 * m + 1] == d2[2 * n + 1];
      AccruedSplits(self, es1, es2[..n], d1, d2[..2 * n]);
      AccruedStep(self, es, ds);
      AccruedStep(self, es2, d2);
    }
  }

  /**
   Each successor contributes payoff × confidence² × weight to total, and to
   c only when this agent cooperated.
   */
  lemma {:induction false} EachEncounterContributes(self: Agent, es: seq<Encounter>, e: Encounter, draws: seq<real>, mine: real, theirs: real)
    requires |draws| == 2 * |es|
    requires AreDraws(draws) && IsDraw(mine) && IsDraw(theirs)
    ensures AreDraws(draws + [mine, theirs])
    ensures var before := Play(self, es, draws);
            var after := Play(self, es + [e], draws + [mine, theirs]);
            var gain := Scaled(Payoff(Cooperate(self, mine), Cooperate(e.opponent, theirs)), e);
            && after.total == before.total + gain
            && after.c == (if Cooperate(self, mine) then before.c + gain else before.c)
  {
    var ds := draws + [mine, theirs];
    assert AreDraws(ds) by {
      forall k | 0 <= k < |ds|
        ensures IsDraw(ds[k])
      {
        if k < |draws| { assert ds[k] == draws[k]; }
      }
    }
    assert AreDraws([mine, theirs]);
    AccruedSplits(self, es, [e], draws, [mine, theirs]);
    assert [e][..0] == [];
    assert [mine, theirs][..0] == [];
  }

  /**
   The reference scenario: two fresh agents joined by an edge of weight 1 and
   confidence 1, both drawing 0 (so both cooperate): the player gains 7 in c and in total.
   */
  lemma MutualCooperationScenario(a: AgentId, b: AgentId)
    ensures var r := Play(NewAgent(a), [Encounter(1.0, 1, NewAgent(b))], [0.0, 0.0]);
            r.c == 107.0 && r.total == 207.0
  {
    var es := [Encounter(1.0, 1, NewAgent(b))];
    assert es[..0] == [];
    assert [0.0, 0.0][..0] == [];
  }
}
