/** The add-to-cart button of src/components/BoutonAjoutPanier.tsx: an
    internal quantity counter and a loop that dispatches one AJOUTER_ARTICLE
    per unit. */
module BoutonAjoutPanier {
  import opened Wrappers
  import opened Types
  import opened ContextePanier

  /** `n` copies of one action, in dispatch order; none when `n <= 0`. */
  function Repeter(a: ActionPanier, n: int): (r: seq<ActionPanier>)
    ensures |r| == if n > 0 then n else 0
    ensures forall i :: 0 <= i < |r| ==> r[i] == a
    decreases n
  {
    if n <= 0 then [] else [a] + Repeter(a, n - 1)
  }

  class Bouton {
    const produit: Produit
    /** The `quantite` prop; `None` when the parent gives none. */
    const propQuantite: Option<int>
    var quantiteInterne: int

    /** The internal counter never drops below 1. */
    ghost predicate Valid()
      reads this
    {
      quantiteInterne >= 1
    }

    constructor (produit: Produit, propQuantite: Option<int>)
      ensures Valid()
      ensures this.produit == produit && this.propQuantite == propQuantite
      ensures quantiteInterne == 1
    {
      this.produit := produit;
      this.propQuantite := propQuantite;
      quantiteInterne := 1;
    }

    /** The quantity used: the prop when given, else the internal counter. */
    function Quantite(): int
      reads this
    {
      if propQuantite.Some? then propQuantite.value else quantiteInterne
    }

    /** `ajouterAuPanier`: nothing for an unavailable product, otherwise
        exactly `Quantite()` AJOUTER_ARTICLE dispatches carrying the product
        (none at all when the quantity is zero or negative). */
    method AjouterAuPanier() returns (envoyees: seq<ActionPanier>)
      ensures !produit.disponible ==> envoyees == []
      ensures produit.disponible ==> |envoyees| == (if Quantite() > 0 then Quantite() else 0)
      ensures forall i :: 0 <= i < |envoyees| ==> envoyees[i] == AjouterArticle(produit)
      ensures envoyees == if produit.disponible then Repeter(AjouterArticle(produit), Quantite()) else []
    {
      if !produit.disponible {
        return [];
      }
      var quantite := Quantite();
      envoyees := [];
      var i := 0;
      while i < quantite
        invariant 0 <= i && (quantite > 0 ==> i <= quantite) && (quantite <= 0 ==> i == 0)
        invariant |envoyees| == i
        invariant forall j :: 0 <= j < i ==> envoyees[j] == AjouterArticle(produit)
      {
        envoyees := envoyees + [AjouterArticle(produit)];
        i := i + 1;
      }
      var attendu := Repeter(AjouterArticle(produit), quantite);
      assert |envoyees| == |attendu|;
      assert forall j :: 0 <= j < |envoyees| ==> envoyees[j] == attendu[j];
    }

    /** `+`: raises the counter only when no prop quantity is given. */
    method AugmenterQuantite()
      requires Valid()
      modifies this
      ensures Valid()
      ensures quantiteInterne == if propQuantite.None? then old(quantiteInterne) + 1 else old(quantiteInterne)
    {
      if propQuantite.None? {
        quantiteInterne := quantiteInterne + 1;
      }
    }

    /** `-`: lowers the counter only when no prop quantity is given and it is above 1. */
    method DiminuerQuantite()
      requires Valid()
      modifies this
      ensures Valid()
      ensures quantiteInterne
              == if propQuantite.None? && old(quantiteInterne) > 1 then old(quantiteInterne) - 1
                 else old(quantiteInterne)
    {
      if propQuantite.None? && quantiteInterne > 1 {
        quantiteInterne := quantiteInterne - 1;
      }
    }
  }

  /** Quantity of the line holding `id`, 0 when there is none. */
  function QuantiteDe(articles: seq<ArticlePanier>, id: string): int
  {
    match IndexArticle(articles, id)
    case None => 0
    case Some(k) => articles[k].quantite
  }

  /** One AJOUTER_ARTICLE raises the product's quantity by one and keeps the
      ids unique and the stored prices consistent with the product. */
  lemma UnAjout(e: EtatPanier, p: Produit)
    requires IdsUniques(e.articles) && PrixCompatibles(e.articles, p)
    ensures var r := Reducteur(e, AjouterArticle(p));
            IdsUniques(r.articles) && PrixCompatibles(r.articles, p)
            && QuantiteDe(r.articles, p.id) == QuantiteDe(e.articles, p.id) + 1
            && r.sousTotal == e.sousTotal + PrixEffectif(p)
  {
    var r := Reducteur(e, AjouterArticle(p));
    match IndexArticle(e.articles, p.id) {
      case Some(k) =>
        AjouterExistant(e, p, k);
        var x := e.articles[k].(quantite := e.articles[k].quantite + 1);
        MiseAJourIdsUniques(e.articles, k, x);
        IndexUnique(r.articles, k);
      case None =>
        AjouterNouveau(e, p);
        IndexUnique(r.articles, |e.articles|);
    }
  }

  /** `n` times `prix`, built by repeated addition so that the induction
      over repeated dispatches stays linear. */
  function Multiple(n: nat, prix: real): (r: real)
    ensures n == 0 ==> r == 0.0
  {
    if n == 0 then 0.0 else Multiple(n - 1, prix) + prix
  }

  lemma {:induction false} MultipleProduit(n: nat, prix: real)
    ensures Multiple(n, prix) == n as real * prix
  {
    if n > 0 {
      MultipleProduit(n - 1, prix);
    }
  }

  lemma {:induction false} AjoutsIdsUniques(e: EtatPanier, p: Produit, n: nat)
    requires IdsUniques(e.articles) && PrixCompatibles(e.articles, p)
    ensures IdsUniques(Appliquer(e, Repeter(AjouterArticle(p), n)).articles)
    decreases n
  {
    if n > 0 {
      var a := AjouterArticle(p);
      UnAjout(e, p);
      AjoutsIdsUniques(Reducteur(e, a), p, n - 1);
      assert Repeter(a, n) == [a] + Repeter(a, n - 1);
      AppliquerTete(e, a, Repeter(a, n - 1));
    }
  }

  lemma {:induction false} AjoutsQuantite(e: EtatPanier, p: Produit, n: nat)
    requires IdsUniques(e.articles) && PrixCompatibles(e.articles, p)
    ensures QuantiteDe(Appliquer(e, Repeter(AjouterArticle(p), n)).articles, p.id)
            == QuantiteDe(e.articles, p.id) + n
    decreases n
  {
    if n > 0 {
      var a := AjouterArticle(p);
      UnAjout(e, p);
      AjoutsQuantite(Reducteur(e, a), p, n - 1);
      assert Repeter(a, n) == [a] + Repeter(a, n - 1);
      AppliquerTete(e, a, Repeter(a, n - 1));
    }
  }

  lemma {:induction false} AjoutsSousTotal(e: EtatPanier, p: Produit, n: nat)
    requires IdsUniques(e.articles) && PrixCompatibles(e.articles, p)
    ensures Appliquer(e, Repeter(AjouterArticle(p), n)).sousTotal
            == e.sousTotal + Multiple(n, PrixEffectif(p))
    decreases n
  {
    if n > 0 {
      var a := AjouterArticle(p);
      UnAjout(e, p);
      AjoutsSousTotal(Reducteur(e, a), p, n - 1);
      assert Repeter(a, n) == [a] + Repeter(a, n - 1);
      AppliquerTete(e, a, Repeter(a, n - 1));
    }
  }

  /** Clicking the button with quantity `n` on an available product adds `n`
      units of it to the cart, on one line, with ids still unique. */
  lemma AjoutsRepetes(e: EtatPanier, p: Produit, n: nat)
    requires IdsUniques(e.articles) && PrixCompatibles(e.articles, p)
    ensures IdsUniques(Appliquer(e, Repeter(AjouterArticle(p), n)).articles)
    ensures QuantiteDe(Appliquer(e, Repeter(AjouterArticle(p), n)).articles, p.id)
            == QuantiteDe(e.articles, p.id) + n
  {
    AjoutsIdsUniques(e, p, n);
    AjoutsQuantite(e, p, n);
  }
}
