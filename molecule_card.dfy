/** The molecule card (frontend/src/components/MoleculeCard.tsx): where the
    card takes its QED from, how it rounds it, and which badges it shows. */
module MoleculeCard {
  import opened Common

  /** The JavaScript values a card field can hold, as far as the card tells them apart. */
  datatype Js = Undefined | Null | Num(n: real) | Text(s: string)

  /** `mol.druglikeness` when it is a number, else `mol.admet?.qed ?? undefined`;
      `admet` is None when `mol.admet` itself is null or undefined. */
  function QedSource(druglikeness: Js, admet: Option<Js>): Js {
    if druglikeness.Num? then druglikeness
    else if admet.None? || admet.value.Undefined? || admet.value.Null? then Undefined
    else admet.value
  }

  /** The card's QED is never null; it is a number exactly when one of the two
      sources is, and a numeric druglikeness wins over anything in admet. */
  lemma QedSourceChoice(druglikeness: Js, admet: Option<Js>)
    ensures var q := QedSource(druglikeness, admet);
      !q.Null? &&
      (q.Num? <==> druglikeness.Num? || (admet.Some? && admet.value.Num?)) &&
      (druglikeness.Num? ==> q == druglikeness) &&
      (q.Num? && !druglikeness.Num? ==> admet == Some(q))
  {
  }

  /** `Number(x.toFixed(2))` on an exact value: the nearest multiple of 0.01,
      ties away from zero. */
  function Fixed2(x: real): real {
    if x < 0.0 then -(((-x) * 100.0 + 0.5).Floor as real) / 100.0
    else ((x * 100.0 + 0.5).Floor as real) / 100.0
  }

  function QedValue(q: Js): Option<real> {
    if q.Num? then Some(Fixed2(q.n)) else None
  }

  datatype Badge = Success | Warning | Danger

  /** `badgeClass`: no value falls back to the warning class. */
  function BadgeClass(qedVal: Option<real>): Badge {
    match qedVal
    case None => Warning
    case Some(v) => if v >= 0.7 then Success else if v >= 0.5 then Warning else Danger
  }

  /** The QED badge is rendered only for a numeric QED. */
  predicate QedBadgeShown(qedVal: Option<real>) {
    qedVal.Some?
  }

  /** The binding badge is rendered only for a numeric `binding_score`. */
  predicate BindingBadgeShown(bindingScore: Js) {
    bindingScore.Num?
  }

  /** The three classes split the rounded value at 0.5 and 0.7, lower bounds
      inclusive; with no value the class is warning but no badge is drawn. */
  lemma BadgeClassification(qedVal: Option<real>)
    ensures BadgeClass(qedVal) == Success <==> qedVal.Some? && qedVal.value >= 0.7
    ensures BadgeClass(qedVal) == Warning <==> qedVal.None? || 0.5 <= qedVal.value < 0.7
    ensures BadgeClass(qedVal) == Danger <==> qedVal.Some? && qedVal.value < 0.5
    ensures qedVal.None? ==> BadgeClass(qedVal) == Warning && !QedBadgeShown(qedVal)
  {
  }

  /** Rounding to hundredths and then comparing with k/100 is comparing the
      exact value with k/100 - 0.005. */
  lemma Fixed2AtLeast(x: real, k: int)
    requires k >= 1
    ensures Fixed2(x) >= k as real / 100.0 <==> x * 100.0 + 0.5 >= k as real
  {
    if x < 0.0 {
      var f := ((-x) * 100.0 + 0.5).Floor;
      assert f >= 0;
    } else {
      var f := (x * 100.0 + 0.5).Floor;
      assert f as real <= x * 100.0 + 0.5 < f as real + 1.0;
      assert Fixed2(x) == f as real / 100.0;
      if x * 100.0 + 0.5 >= k as real {
        assert f >= k;
      }
    }
  }

  /** On the exact QED the card's classes start at 0.495 and 0.695: the
      rounding moves each threshold down by half a hundredth. */
  lemma BadgeOfExactQed(x: real)
    ensures BadgeClass(QedValue(Num(x))) == Success <==> x >= 0.695
    ensures BadgeClass(QedValue(Num(x))) == Warning <==> 0.495 <= x < 0.695
    ensures BadgeClass(QedValue(Num(x))) == Danger <==> x < 0.495
  {
    Fixed2AtLeast(x, 70);
    Fixed2AtLeast(x, 50);
  }
}
