/** The cart list of src/components/ListePanier.tsx: the quantity guard in
    front of MODIFIER_QUANTITE, the per-line price maths and the
    free-shipping banner, read off the cart state. */
module ListePanier {
  import opened Wrappers
  import opened Listes
  import opened Types
  import opened ContextePanier

  /** What a quantity change does: the action dispatched, if any, and whether
      the stock alert is raised. */
  datatype Reaction = Reaction(envoi: Option<ActionPanier>, alerte: bool)

  /** `modifierQuantite(id, quantite, maxStock)`: below 1 nothing happens;
      above a known stock the alert is raised instead of a dispatch; otherwise
      MODIFIER_QUANTITE is dispatched with the same id and quantity. */
  function ModifierQuantite(id: string, quantite: int, maxStock: Option<int>): (r: Reaction)
    ensures r.envoi.Some? ==> r.envoi.value == ActionPanier.ModifierQuantite(id, quantite) && quantite >= 1
    ensures r.alerte ==> r.envoi.None? && maxStock.Some? && quantite > maxStock.value
    ensures r.envoi.None? && !r.alerte ==> quantite < 1
    ensures r.alerte <==> quantite >= 1 && maxStock.Some? && quantite > maxStock.value
    ensures r.envoi.Some? <==> quantite >= 1 && (maxStock.None? || quantite <= maxStock.value)
  {
    if quantite < 1 then Reaction(None, false)
    else if maxStock.Some? && quantite > maxStock.value then Reaction(None, true)
    else Reaction(Some(ActionPanier.ModifierQuantite(id, quantite)), false)
  }

  /** The cart after a reaction: unchanged when nothing was dispatched. */
  function Apres(e: EtatPanier, r: Reaction): EtatPanier
  {
    match r.envoi
    case None => e
    case Some(a) => Reducteur(e, a)
  }

  /** The quantity buttons never remove a line: a request below 1 is dropped
      before it reaches the reducer (so `-` on a line of quantity 1 does
      nothing), and one that is dispatched only sets that line's quantity. */
  lemma BoutonsGardentLaLigne(e: EtatPanier, k: nat, quantite: int, maxStock: Option<int>)
    requires IdsUniques(e.articles) && k < |e.articles|
    ensures var r := ModifierQuantite(e.articles[k].produit.id, quantite, maxStock);
            Apres(e, r).articles
            == if r.envoi.Some? then e.articles[k := e.articles[k].(quantite := quantite)] else e.articles
  {
    var r := ModifierQuantite(e.articles[k].produit.id, quantite, maxStock);
    if r.envoi.Some? {
      ModifierPresent(e, k, quantite);
    }
  }

  /** `-` on a line of quantity 1 leaves the cart exactly as it was. */
  lemma MoinsSurUn(e: EtatPanier, k: nat)
    requires k < |e.articles| && e.articles[k].quantite == 1
    ensures Apres(e, ModifierQuantite(e.articles[k].produit.id, e.articles[k].quantite - 1, None)) == e
  {
  }

  // ---------------------------------------------------------------------
  // Per-line price maths

  /** The promotion badge test: the flag is set and a promotional price is
      present (`!== undefined`), even when that price is 0. */
  predicate PromoAffichee(a: ArticlePanier)
  {
    a.produit.enPromotion && a.produit.prixPromotion.Some?
  }

  /** The unit price shown on a line: the promotional price under the
      badge, else the base price; it is the price charged except for a
      promotional price of 0. */
  function PrixAffiche(a: ArticlePanier): (r: real)
    ensures PromoAffichee(a) ==> Some(r) == a.produit.prixPromotion
    ensures !PromoAffichee(a) ==> r == a.produit.prix
    ensures !(a.produit.enPromotion && a.produit.prixPromotion == Some(0.0)) ==> r == PrixEffectif(a.produit)
  {
    if PromoAffichee(a) then a.produit.prixPromotion.value else a.produit.prix
  }

  /** The line sub-total shown: shown unit price times quantity, which is
      the amount the cart charges for the line unless the promotional price
      is 0. */
  function SousTotalLigne(a: ArticlePanier): (r: real)
    ensures a.quantite == 0 ==> r == 0.0
    ensures !(a.produit.enPromotion && a.produit.prixPromotion == Some(0.0)) ==> r == MontantLigne(a)
  {
    PrixAffiche(a) * a.quantite as real
  }

  /** The savings badge of a promotion line: `(prix - prixPromotion) * quantite`. */
  function Economie(a: ArticlePanier): (r: Option<real>)
    ensures r.Some? <==> PromoAffichee(a)
    ensures r.Some? ==> r.value + SousTotalLigne(a) == a.produit.prix * a.quantite as real
  {
    if PromoAffichee(a)
    then Some((a.produit.prix - a.produit.prixPromotion.value) * a.quantite as real)
    else None
  }

  /** The shown price and the price the reducer charges disagree exactly on a
      promotion line whose promotional price is 0 and whose base price is not. */
  lemma PrixAfficheDiffere(a: ArticlePanier)
    ensures PrixAffiche(a) != PrixEffectif(a.produit)
            <==> a.produit.enPromotion && a.produit.prixPromotion == Some(0.0) && a.produit.prix != 0.0
  {
  }

  /** No line has a promotional price of 0 under a set promotion flag. */
  predicate SansPromoNulle(articles: seq<ArticlePanier>)
  {
    forall i :: 0 <= i < |articles| ==> !(articles[i].produit.enPromotion && articles[i].produit.prixPromotion == Some(0.0))
  }

  /** Without zero promotional prices, the shown line sub-totals add up to the
      sub-total of a coherent cart. */
  lemma SommeAfficheeEgaleSousTotal(e: EtatPanier)
    requires Coherent(e) && SansPromoNulle(e.articles)
    ensures SommeReelle(e.articles, SousTotalLigne) == e.sousTotal
  {
    forall i | 0 <= i < |e.articles|
      ensures SousTotalLigne(e.articles[i]) == MontantLigne(e.articles[i])
    {
      PrixAfficheDiffere(e.articles[i]);
    }
    SommeReellePointAPoint(e.articles, e.articles, SousTotalLigne, MontantLigne);
  }

  // ---------------------------------------------------------------------
  // Summary block

  /** The free-shipping banner: the amount still to buy and the progress
      bar width in percent. */
  datatype Bandeau = Bandeau(reste: real, largeur: real)

  /** Shown when the fee is positive and the sub-total is non-zero (truthy). */
  function BandeauLivraison(e: EtatPanier): (r: Option<Bandeau>)
    ensures r.Some? <==> e.fraisLivraison > 0.0 && e.sousTotal != 0.0
    ensures r.Some? ==> r.value.reste + e.sousTotal == SeuilLivraisonGratuite && r.value.largeur <= 100.0
    ensures r.Some? ==> r.value.largeur * SeuilLivraisonGratuite <= e.sousTotal * 100.0
    ensures r.Some? ==> r.value.largeur == 100.0 || r.value.largeur * SeuilLivraisonGratuite == e.sousTotal * 100.0
  {
    if e.fraisLivraison > 0.0 && e.sousTotal != 0.0 then
      var pourcentage := e.sousTotal / 30.0 * 100.0;
      Some(Bandeau(30.0 - e.sousTotal, if pourcentage < 100.0 then pourcentage else 100.0))
    else None
  }

  /** When the fee follows the free-shipping rule, the banner shows exactly
      for a non-zero sub-total below the threshold, and then something is
      left to buy and the bar is not full. */
  lemma BandeauSousLeSeuil(e: EtatPanier)
    requires e.fraisLivraison == CalculerFraisLivraison(e.sousTotal)
    ensures BandeauLivraison(e).Some? <==> e.sousTotal < SeuilLivraisonGratuite && e.sousTotal != 0.0
    ensures BandeauLivraison(e).Some? ==> BandeauLivraison(e).value.reste > 0.0 && BandeauLivraison(e).value.largeur < 100.0
    ensures BandeauLivraison(e).Some? && e.sousTotal > 0.0 ==> BandeauLivraison(e).value.largeur > 0.0
  {
  }

  /** One rendered line. */
  datatype LigneAffichee = LigneAffichee(
    id: string,
    promo: bool,
    prixAffiche: real,
    sousTotal: real,
    economie: Option<real>)

  /** The rendered list. `livraison` is `None` where "Gratuite" is shown;
      `reduction` is `None` when no discount line is shown. */
  datatype Vue = Vue(
    lignes: seq<LigneAffichee>,
    sousTotal: real,
    reduction: Option<real>,
    livraison: Option<real>,
    bandeau: Option<Bandeau>,
    total: real)

  function Ligne(a: ArticlePanier): LigneAffichee
  {
    LigneAffichee(a.produit.id, PromoAffichee(a), PrixAffiche(a), SousTotalLigne(a), Economie(a))
  }

  /** The component: nothing for an empty cart, otherwise one rendered line
      per cart line, in cart order, and the summary block. */
  function Rendu(e: EtatPanier): (r: Option<Vue>)
    ensures r.None? <==> |e.articles| == 0
    ensures r.Some? ==> |r.value.lignes| == |e.articles|
    ensures r.Some? ==> forall i :: 0 <= i < |e.articles| ==>
              r.value.lignes[i].id == e.articles[i].produit.id
              && r.value.lignes[i].sousTotal == PrixAffiche(e.articles[i]) * e.articles[i].quantite as real
    ensures r.Some? ==> (r.value.livraison.None? <==> e.fraisLivraison <= 0.0)
    ensures r.Some? ==> (r.value.reduction.Some? <==> e.reduction > 0.0)
  {
    if |e.articles| == 0 then None
    else Some(Vue(
      seq(|e.articles|, i requires 0 <= i < |e.articles| => Ligne(e.articles[i])),
      e.sousTotal,
      if e.reduction > 0.0 then Some(e.reduction) else None,
      if e.fraisLivraison > 0.0 then Some(e.fraisLivraison) else None,
      BandeauLivraison(e),
      e.total))
  }
}
