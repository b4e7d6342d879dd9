/** The docking service: real docking is a stub, so every score comes from
    the fallback heuristic over pharmacophore counts in the SMILES text. */
module Docking {
  import opened Common

  datatype Pharmacophore = Pharmacophore(pattern: string, reward: real)

  const Pharmacophores: seq<Pharmacophore> := [
    Pharmacophore("N", 0.5),
    Pharmacophore("O", 0.3),
    Pharmacophore("S", 0.4),
    Pharmacophore("F", 0.2),
    Pharmacophore("Cl", 0.3),
    Pharmacophore("aromatic", 1.0)
  ]

  function MinReal(a: real, b: real): real { if a <= b then a else b }
  function AbsReal(x: real): real { if x < 0.0 then -x else x }

  /** Lower-case (aromatic) atom symbols: c, n, o and s. */
  function AromaticCount(smiles: string): nat {
    CountOccurrences(smiles, "c") + CountOccurrences(smiles, "n") +
    CountOccurrences(smiles, "o") + CountOccurrences(smiles, "s")
  }

  /** The most one pharmacophore can add: 3 for the aromatic bonus, 2 otherwise. */
  function Cap(ph: Pharmacophore): real {
    if ph.pattern == "aromatic" then 3.0 else 2.0
  }

  /** How often a pharmacophore occurs in the SMILES text. */
  function PatternCount(smiles: string, ph: Pharmacophore): nat {
    if ph.pattern == "aromatic" then AromaticCount(smiles) else CountOccurrences(smiles, ph.pattern)
  }

  /** `count * reward`. */
  function Scaled(count: nat, reward: real): real {
    count as real * reward
  }

  lemma ScaledNonNegative(count: nat, reward: real)
    requires reward >= 0.0
    ensures Scaled(count, reward) >= 0.0
  {
  }

  /** The bonus for one pharmacophore: count times reward, capped. */
  function Contribution(smiles: string, ph: Pharmacophore): (r: real)
    requires ph.reward >= 0.0
    ensures 0.0 <= r <= Cap(ph)
  {
    var count := PatternCount(smiles, ph);
    ScaledNonNegative(count, ph.reward);
    MinReal(Scaled(count, ph.reward), Cap(ph))
  }

  lemma ContributionOf(smiles: string, ph: Pharmacophore, count: nat)
    requires ph.reward >= 0.0 && count == PatternCount(smiles, ph)
    ensures Contribution(smiles, ph) == MinReal(Scaled(count, ph.reward), Cap(ph))
  {
  }

  predicate RewardsNonNegative(phs: seq<Pharmacophore>) {
    forall i :: 0 <= i < |phs| ==> phs[i].reward >= 0.0
  }

  /** The bonuses of the listed pharmacophores, added in list order. */
  function ContributionSum(smiles: string, phs: seq<Pharmacophore>): real
    requires RewardsNonNegative(phs)
    decreases |phs|
  {
    if phs == [] then 0.0
    else ContributionSum(smiles, phs[..|phs| - 1]) + Contribution(smiles, phs[|phs| - 1])
  }

  function CapSum(phs: seq<Pharmacophore>): real
    decreases |phs|
  {
    if phs == [] then 0.0 else CapSum(phs[..|phs| - 1]) + Cap(phs[|phs| - 1])
  }

  lemma {:induction false} ContributionSumBounds(smiles: string, phs: seq<Pharmacophore>)
    requires RewardsNonNegative(phs)
    ensures 0.0 <= ContributionSum(smiles, phs) <= CapSum(phs)
    decreases |phs|
  {
    if phs != [] {
      ContributionSumBounds(smiles, phs[..|phs| - 1]);
    }
  }

  /** The five atom bonuses are capped at 2 each and the aromatic one at 3. */
  lemma PharmacophoreCaps()
    ensures RewardsNonNegative(Pharmacophores)
    ensures CapSum(Pharmacophores) == 13.0
  {
    var p := Pharmacophores;
    assert p[..0] == [];
    assert p[..1][..0] == p[..0];
    assert p[..2][..1] == p[..1];
    assert p[..3][..2] == p[..2];
    assert p[..4][..3] == p[..3];
    assert p[..5][..4] == p[..4];
    assert p[..6][..5] == p[..5];
    assert p[..6] == p;
    assert CapSum(p[..1]) == 2.0;
    assert CapSum(p[..2]) == 4.0;
    assert CapSum(p[..3]) == 6.0;
    assert CapSum(p[..4]) == 8.0;
    assert CapSum(p[..5]) == 10.0;
  }

  function LengthPenalty(smiles: string): real {
    if |smiles| > 100 then -2.0 else 0.0
  }

  /** The score before noise: the length penalty plus all bonuses. */
  function BaseScore(smiles: string): real {
    PharmacophoreCaps();
    LengthPenalty(smiles) + ContributionSum(smiles, Pharmacophores)
  }

  lemma BaseScoreBounds(smiles: string)
    ensures -2.0 <= BaseScore(smiles) <= 13.0
    ensures |smiles| <= 100 ==> BaseScore(smiles) >= 0.0
    ensures |smiles| > 100 ==> BaseScore(smiles) <= 11.0
  {
    PharmacophoreCaps();
    ContributionSumBounds(smiles, Pharmacophores);
  }

  /** The fallback score with its two draws: noise from uniform(-1, 1) and
      the offset u from uniform(3, 8). */
  function FallbackScore(smiles: string, noise: real, u: real): real {
    -(AbsReal(BaseScore(smiles) + noise) + u)
  }

  /** Every fallback score is negative: at most -3, and by the caps at least -22. */
  lemma FallbackScoreBounds(smiles: string, noise: real, u: real)
    requires -1.0 <= noise <= 1.0 && 3.0 <= u <= 8.0
    ensures -22.0 <= FallbackScore(smiles, noise, u) <= -3.0
  {
    BaseScoreBounds(smiles);
  }

  method FallbackScoring(smiles: string, noise: real, u: real) returns (score: real)
    requires -1.0 <= noise <= 1.0 && 3.0 <= u <= 8.0
    ensures score == FallbackScore(smiles, noise, u)
    ensures -22.0 <= score <= -3.0
  {
    PharmacophoreCaps();
    var acc := 0.0;
    if |smiles| > 100 {
      acc := acc - 2.0;
    }
    var i := 0;
    while i < |Pharmacophores|
      invariant 0 <= i <= |Pharmacophores|
      invariant acc == LengthPenalty(smiles) + ContributionSum(smiles, Pharmacophores[..i])
    {
      assert Pharmacophores[..i + 1][..i] == Pharmacophores[..i];
      var ph := Pharmacophores[i];
      var bonus: real;
      if ph.pattern == "aromatic" {
        var count := CountOccurrences(smiles, "c") + CountOccurrences(smiles, "n") +
                     CountOccurrences(smiles, "o") + CountOccurrences(smiles, "s");
        bonus := MinReal(Scaled(count, ph.reward), 3.0);
        ContributionOf(smiles, ph, count);
      } else {
        var count := CountOccurrences(smiles, ph.pattern);
        bonus := MinReal(Scaled(count, ph.reward), 2.0);
        ContributionOf(smiles, ph, count);
      }
      assert bonus == Contribution(smiles, ph);
      acc := acc + bonus;
      i := i + 1;
    }
    assert Pharmacophores[..i] == Pharmacophores;
    acc := acc + noise;
    score := -(AbsReal(acc) + u);
    FallbackScoreBounds(smiles, noise, u);
  }

  /** The two external docking programs. */
  datatype DockingTool = Smina | Vina

  /** `_dock_with_smina` and `_dock_with_vina`: both are stubs that never
      produce a score. */
  function DockWithTool(tool: DockingTool, smiles: string, proteinPdb: string): (r: Option<real>)
    ensures r.None?
  {
    None
  }

  /** Tries smina, then Vina (each only when installed), then the fallback;
      since both stubs fail, the result is always the fallback score. */
  method DockMolecule(smiles: string, proteinPdb: string, sminaAvailable: bool, vinaAvailable: bool,
                      noise: real, u: real) returns (score: real)
    requires -1.0 <= noise <= 1.0 && 3.0 <= u <= 8.0
    ensures score == FallbackScore(smiles, noise, u)
    ensures -22.0 <= score <= -3.0
  {
    if sminaAvailable {
      var s := DockWithTool(Smina, smiles, proteinPdb);
      if s.Some? {
        assert false;
      }
    }
    if vinaAvailable {
      var s := DockWithTool(Vina, smiles, proteinPdb);
      if s.Some? {
        assert false;
      }
    }
    score := FallbackScoring(smiles, noise, u);
  }
}
