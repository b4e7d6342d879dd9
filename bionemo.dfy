/** The BioNeMo service: a remote generator when configured, otherwise a
    random sample without replacement from a fixed pool of SMILES. */
module Bionemo {
  import opened Common
  import RdkitUtils

  /** The k-th (0 to 7) of the eight molecules the pool adds to the built-in list. */
  function AdditionalEntry(k: int): string {
    if k == 0 then "CC1=C(C=C(C=C1)NC(=O)C2=CC=C(C=C2)CN3CCN(CC3)C)C"
    else if k == 1 then "COC1=CC2=C(C=C1)C(=CN2)C(=O)N3CCN(CC3)C4=CC=C(C=C4)F"
    else if k == 2 then "CC(C)(C)C1=CC=C(C=C1)C(=O)NC2=CC=C(C=C2)N3CCCC3"
    else if k == 3 then "CN1C=NC2=C1C(=O)N(C(=O)N2C)C3=CC=CC=C3"
    else if k == 4 then "COC1=CC=C(C=C1)CCN2C=NC3=CC=CC=C32"
    else if k == 5 then "CC1=CC=C(C=C1)S(=O)(=O)N2CCCC2C(=O)N3CCN(CC3)C"
    else if k == 6 then "CN(C)C1=CC=C(C=C1)C=C2C=CC(=CC2=O)N(C)C"
    else "COC1=CC=C(C=C1)NC(=O)C2=CC=C(C=C2)C#N"
  }

  function AdditionalSmiles(): seq<string> {
    seq(8, AdditionalEntry)
  }

  /** The pool sampled from: the built-in list cut at twice the count,
      followed by the eight additional molecules. */
  function FallbackPool(count: int): (pool: seq<string>)
    ensures 8 <= |pool| <= 18 && pool[|pool| - 8..] == AdditionalSmiles()
    ensures count >= 0 ==> |pool| == Min(2 * count, 10) + 8
    ensures forall i :: 0 <= i < |pool| - 8 ==> pool[i] == RdkitUtils.FallbackSmiles()[i]
  {
    RdkitUtils.GenerateFallbackMolecules(count * 2) + AdditionalSmiles()
  }

  /** Positions drawn by `random.sample`: k of them, all in range, none twice. */
  predicate ValidPicks(picks: seq<nat>, k: int, n: nat) {
    |picks| == k &&
    (forall i :: 0 <= i < |picks| ==> picks[i] < n) &&
    (forall i, j :: 0 <= i < j < |picks| ==> picks[i] != picks[j])
  }

  /** The ValueError `random.sample` raises for a negative sample size. */
  const SampleError: string := "Sample larger than population or is negative"

  function Pick(pool: seq<string>, picks: seq<nat>): (r: seq<string>)
    requires forall i :: 0 <= i < |picks| ==> picks[i] < |pool|
    ensures |r| == |picks| && forall i :: 0 <= i < |picks| ==> r[i] == pool[picks[i]]
  {
    seq(|picks|, i requires 0 <= i < |picks| => pool[picks[i]])
  }

  /** `random.sample(pool, min(count, len(pool)))` with the drawn positions as input. */
  function GenerateFallbackMolecules(count: int, picks: seq<nat>): (r: Result<seq<string>, string>)
    requires count >= 0 ==> ValidPicks(picks, Min(count, |FallbackPool(count)|), |FallbackPool(count)|)
    ensures r.Err? <==> count < 0
    ensures r.Err? ==> r.error == SampleError
    ensures r.Ok? ==> |r.value| == Min(count, |FallbackPool(count)|) &&
                      forall i :: 0 <= i < |r.value| ==> r.value[i] == FallbackPool(count)[picks[i]]
  {
    if count < 0 then Err(SampleError) else Ok(Pick(FallbackPool(count), picks))
  }

  /** Sampling without replacement: the result is a sub-multiset of the pool,
      so a molecule occurs in it at most as often as in the pool. */
  lemma FallbackSampleFromPool(count: int, picks: seq<nat>)
    requires count >= 0 ==> ValidPicks(picks, Min(count, |FallbackPool(count)|), |FallbackPool(count)|)
    ensures var r := GenerateFallbackMolecules(count, picks);
      r.Ok? ==> multiset(r.value) <= multiset(FallbackPool(count))
  {
    if count >= 0 {
      DistinctPicksSubMultiset(FallbackPool(count), picks);
    }
  }

  /** Drops position p from a list of positions that avoids it. */
  function Shift(picks: seq<nat>, p: nat): (r: seq<nat>)
    requires forall i :: 0 <= i < |picks| ==> picks[i] != p
    ensures |r| == |picks|
    ensures forall i :: 0 <= i < |r| ==> r[i] == if picks[i] < p then picks[i] else picks[i] - 1
  {
    seq(|picks|, i requires 0 <= i < |picks| => if picks[i] < p then picks[i] else picks[i] - 1)
  }

  lemma {:induction false} DistinctPicksSubMultiset(pool: seq<string>, picks: seq<nat>)
    requires ValidPicks(picks, |picks|, |pool|)
    ensures multiset(Pick(pool, picks)) <= multiset(pool)
    decreases |picks|
  {
    if picks != [] {
      var k := |picks| - 1;
      var p := picks[k];
      var rest := picks[..k];
      var pool' := pool[..p] + pool[p + 1..];
      var rest' := Shift(rest, p);
      forall i | 0 <= i < |rest'| ensures rest'[i] < |pool'| && pool'[rest'[i]] == pool[rest[i]] {
        assert rest[i] == picks[i] && rest[i] != p;
      }
      forall i, j | 0 <= i < j < |rest'| ensures rest'[i] != rest'[j] {
        assert rest[i] == picks[i] && rest[j] == picks[j];
      }
      DistinctPicksSubMultiset(pool', rest');
      assert Pick(pool', rest') == Pick(pool, rest);
      assert Pick(pool, picks) == Pick(pool, rest) + [pool[p]];
      assert pool == pool[..p] + [pool[p]] + pool[p + 1..];
      assert multiset(pool) == multiset(pool') + multiset{pool[p]};
    }
  }

  /** Uses the remote result only when endpoint and key are both set and it is
      non-empty; `remote` is what the remote call returned ([] on any error). */
  function GenerateMolecules(count: int, endpoint: Option<string>, apiKey: Option<string>,
                             remote: seq<string>, picks: seq<nat>): (r: Result<seq<string>, string>)
    requires count >= 0 ==> ValidPicks(picks, Min(count, |FallbackPool(count)|), |FallbackPool(count)|)
    ensures TruthyText(endpoint) && TruthyText(apiKey) && remote != [] ==> r == Ok(remote)
    ensures !(TruthyText(endpoint) && TruthyText(apiKey) && remote != []) ==>
              r == GenerateFallbackMolecules(count, picks)
  {
    if TruthyText(endpoint) && TruthyText(apiKey) && remote != [] then Ok(remote)
    else GenerateFallbackMolecules(count, picks)
  }
}
