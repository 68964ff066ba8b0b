/** The two-thumb price slider of src/components/ui/Slider.tsx: conversion
    between values and track percentages, snapping to the step, and the
    move handler that drags one thumb while keeping the two a step apart. */
module Curseur {
  import opened Wrappers

  /** `Math.round`: the nearest integer, halves rounded up. */
  function Arrondi(x: real): (r: int)
    ensures x - 0.5 < r as real <= x + 0.5
  {
    (x + 0.5).Floor
  }

  /** `Math.min(Math.max(x, bas), haut)`. */
  function Borner(x: real, bas: real, haut: real): (r: real)
    ensures bas <= haut ==> bas <= r <= haut
    ensures bas <= x <= haut ==> r == x
    ensures r == x || r == bas || r == haut
  {
    var m := if x > bas then x else bas;
    if m < haut then m else haut
  }

  /** `getPercentage`: where a value sits on the track, 0 at `min` and 100
      at `max`. */
  function Pourcentage(valeur: real, min: real, max: real): (r: real)
    requires max != min
    ensures r * (max - min) == (valeur - min) * 100.0
  {
    (valeur - min) / (max - min) * 100.0
  }

  /** The two ends of the track are at 0 % and 100 %, and a value between
      them is between the two. */
  lemma PourcentageAuxBornes(min: real, max: real, valeur: real)
    requires max > min
    ensures Pourcentage(min, min, max) == 0.0 && Pourcentage(max, min, max) == 100.0
    ensures min <= valeur <= max ==> 0.0 <= Pourcentage(valeur, min, max) <= 100.0
  {
    if min <= valeur <= max {
      FractionBornee(valeur - min, max - min);
    }
  }

  /** A part of a positive whole is a fraction between 0 and 1. */
  lemma FractionBornee(a: real, d: real)
    requires d > 0.0 && 0.0 <= a <= d
    ensures 0.0 <= a / d <= 1.0
  {
    var q := a / d;
    assert q * d == a;
  }

  /** `getValue`: the value at a track percentage, snapped to the nearest
      multiple of `step` and kept within `[min, max]`. */
  function Valeur(pourcentage: real, min: real, max: real, step: real): (r: real)
    requires step > 0.0
    ensures min <= max ==> min <= r <= max
    ensures min > max ==> r == max
  {
    var brute := pourcentage / 100.0 * (max - min) + min;
    Borner(Arrondi(brute / step) as real * step, min, max)
  }

  /** A value on the step grid inside the range is found again at its own
      percentage. */
  lemma ValeurAllerRetour(min: real, max: real, step: real, k: int)
    requires max > min && step > 0.0
    requires min <= k as real * step <= max
    ensures Valeur(Pourcentage(k as real * step, min, max), min, max, step) == k as real * step
  {
    var v := k as real * step;
    PourcentageInverse(v, min, max);
    var brute := Pourcentage(v, min, max) / 100.0 * (max - min) + min;
    assert brute == v;
    assert brute / step == k as real;
    assert Arrondi(brute / step) == k;
  }

  /** Reading a value's percentage back along the track gives the value. */
  lemma PourcentageInverse(v: real, min: real, max: real)
    requires max != min
    ensures Pourcentage(v, min, max) / 100.0 * (max - min) + min == v
  {
    var d := max - min;
    var q := (v - min) / d;
    assert q * d == v - min;
    assert Pourcentage(v, min, max) / 100.0 == q;
  }

  /** `handleMouseDown`/`handleTouchStart` pick a thumb; `handleEnd` releases it. */
  datatype Poignee = PoigneeMin | PoigneeMax

  class Glissiere {
    const min: real
    const max: real
    const step: real
    var valeur: (real, real)
    var saisie: Option<Poignee>

    constructor (min: real, max: real, valeur: (real, real), step: real)
      ensures this.min == min && this.max == max && this.step == step
      ensures this.valeur == valeur && saisie == None
    {
      this.min := min;
      this.max := max;
      this.step := step;
      this.valeur := valeur;
      saisie := None;
    }

    /** A press on a thumb starts dragging it. */
    method Saisir(p: Poignee)
      modifies this
      ensures saisie == Some(p) && valeur == old(valeur)
    {
      saisie := Some(p);
    }

    /** Releasing the pointer ends the drag. */
    method Relacher()
      modifies this
      ensures saisie == None && valeur == old(valeur)
    {
      saisie := None;
    }

    /** `handleMove`: `position` is the pointer's offset across the track in
      percent, before clamping. Without a thumb being dragged nothing is
      sent. Otherwise the pointer is clamped to the track, converted to a
      value, and the dragged thumb moves there but stops a step short of the
      other thumb, which keeps its value; the pair is returned as the
      argument of `onChange`. */
    method Deplacer(position: real) returns (envoi: Option<(real, real)>)
      requires step > 0.0
      ensures saisie.None? <==> envoi.None?
      ensures saisie == Some(PoigneeMin) ==>
                envoi.value.1 == valeur.1 && envoi.value.0 <= valeur.1 - step
                && envoi.value.0 == Plafond(Valeur(Borner(position, 0.0, 100.0), min, max, step), valeur.1 - step)
      ensures saisie == Some(PoigneeMax) ==>
                envoi.value.0 == valeur.0 && envoi.value.1 >= valeur.0 + step
                && envoi.value.1 == Plancher(Valeur(Borner(position, 0.0, 100.0), min, max, step), valeur.0 + step)
      ensures saisie == Some(PoigneeMin) && min <= max && min + step <= valeur.1 ==> min <= envoi.value.0
      ensures saisie == Some(PoigneeMax) && min <= max && valeur.0 + step <= max ==> envoi.value.1 <= max
    {
      if saisie.None? {
        return None;
      }
      var pourcentage := Borner(position, 0.0, 100.0);
      var nouvelle := Valeur(pourcentage, min, max, step);
      var nouvelles := valeur;
      if saisie.value == PoigneeMin {
        nouvelles := (Plafond(nouvelle, valeur.1 - step), nouvelles.1);
      } else {
        nouvelles := (nouvelles.0, Plancher(nouvelle, valeur.0 + step));
      }
      return Some(nouvelles);
    }
  }

  /** `Math.min(a, b)`. */
  function Plafond(a: real, b: real): (r: real)
    ensures r <= a && r <= b && (r == a || r == b)
  {
    if a < b then a else b
  }

  /** `Math.max(a, b)`. */
  function Plancher(a: real, b: real): (r: real)
    ensures r >= a && r >= b && (r == a || r == b)
  {
    if a > b then a else b
  }

  /** Dragging the lower thumb and then the upper one leaves them at least
      one step apart. */
  lemma DeuxDeplacementsEcartes(v: (real, real), a: real, b: real, step: real)
    requires step > 0.0
    ensures var bas := Plafond(a, v.1 - step);
            var haut := Plancher(b, bas + step);
            bas + step <= haut
  {
  }
}
