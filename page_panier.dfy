/** The cart page of src/app/panier/page.tsx: the "saved for later" list,
    the recently viewed list and the moves between the saved list and the
    cart. */
module PagePanier {
  import opened Wrappers
  import opened Listes
  import opened Types
  import opened ContextePanier

  /** An entry of the saved or recently viewed list. */
  datatype EntreeSauvee = EntreeSauvee(
    id: string,
    nom: string,
    image: Option<string>,
    prix: real,
    categorie: Option<string>)

  /** What local storage holds under a key: nothing (or an empty string),
      text that is not JSON, JSON that is not an array, or an array. */
  datatype Stocke = Absent | Malforme | NonTableau | Tableau(entrees: seq<EntreeSauvee>)

  /** The entry `moveToSaved` builds from a cart line: its base price, never
      the promotional one. */
  function EntreeDepuis(a: ArticlePanier): (r: EntreeSauvee)
    ensures r.id == a.produit.id && r.prix == a.produit.prix
  {
    EntreeSauvee(a.produit.id, a.produit.nom, Some(a.produit.image), a.produit.prix, Some(a.produit.categorie))
  }

  /** The product `moveToCart` rebuilds from a saved entry, stamped with the
      current time: no promotion, no extra images, available. */
  function ProduitDepuis(x: EntreeSauvee, maintenant: int): (p: Produit)
    ensures p.id == x.id && p.prix == x.prix
    ensures !p.enPromotion && p.disponible && p.images == [] && p.ingredients == []
  {
    Produit(x.id, x.nom,
            if x.image.Some? then x.image.value else "",
            [], x.prix, "", [],
            if x.categorie.Some? then x.categorie.value else "",
            false, None, false, true, maintenant)
  }

  /** `copy.splice(index, 1)` on a copy of `s`: a negative index counts from
      the end, an index past the end removes nothing. */
  function Retrancher<T>(s: seq<T>, index: int): (r: seq<T>)
    ensures 0 <= index < |s| ==> r == s[..index] + s[index + 1..]
    ensures index < 0 && s != [] ==>
              var d := if |s| + index > 0 then |s| + index else 0;
              r == s[..d] + s[d + 1..]
    ensures index >= |s| ==> r == s
    ensures |r| == if s != [] && index < |s| then |s| - 1 else |s|
    ensures multiset(r) <= multiset(s)
  {
    var debut := if index < 0 then (if |s| + index > 0 then |s| + index else 0)
                 else (if index < |s| then index else |s|);
    if debut < |s| then
      assert s == s[..debut] + [s[debut]] + s[debut + 1..];
      s[..debut] + s[debut + 1..]
    else s
  }

  /** The quantity shown in the "items in your cart" header: the sum of the
      line quantities, so at least one per line when every line holds one. */
  function NombreArticles(articles: seq<ArticlePanier>): (r: int)
    ensures articles == [] ==> r == 0
    ensures (forall i :: 0 <= i < |articles| ==> articles[i].quantite >= 1) ==> r >= |articles|
  {
    var f := (a: ArticlePanier) => a.quantite;
    SommeEntiereMinoree(articles, f);
    SommeEntiere(articles, f)
  }

  class Page {
    var enregistres: seq<EntreeSauvee>
    var vusRecemment: seq<EntreeSauvee>

    /** At most four recently viewed entries are ever kept. */
    ghost predicate Valid()
      reads this
    {
      |vusRecemment| <= 4
    }

    constructor ()
      ensures Valid()
      ensures enregistres == [] && vusRecemment == []
    {
      enregistres := [];
      vusRecemment := [];
    }

    /** The loading effect: an array under 'recentlyViewed' gives its first
      four entries; an array under 'savedItems' replaces the saved list.
      Anything else is ignored, and unparseable text under 'recentlyViewed'
      throws before 'savedItems' is read. */
    method Charger(vus: Stocke, sauves: Stocke)
      requires Valid()
      modifies this
      ensures Valid()
      ensures vusRecemment == if vus.Tableau? then Prendre(vus.entrees, 4) else old(vusRecemment)
      ensures enregistres == if !vus.Malforme? && sauves.Tableau? then sauves.entrees else old(enregistres)
    {
      if vus.Malforme? {
        return;
      }
      if vus.Tableau? {
        vusRecemment := Prendre(vus.entrees, 4);
      }
      if sauves.Tableau? {
        enregistres := sauves.entrees;
      }
    }

    /** `moveToSaved`: appends the line's entry at the end of the saved list
      and dispatches SUPPRIMER_ARTICLE for its id. */
    method DeplacerVersSauves(a: ArticlePanier) returns (envoi: ActionPanier)
      requires Valid()
      modifies this
      ensures Valid()
      ensures enregistres == old(enregistres) + [EntreeDepuis(a)]
      ensures vusRecemment == old(vusRecemment)
      ensures envoi == SupprimerArticle(a.produit.id)
    {
      enregistres := enregistres + [EntreeDepuis(a)];
      envoi := SupprimerArticle(a.produit.id);
    }

    /** `moveToCart`: dispatches AJOUTER_ARTICLE with the rebuilt product,
      then removes the entry at `index` from the saved list. */
    method DeplacerVersPanier(x: EntreeSauvee, index: int, maintenant: int) returns (envoi: ActionPanier)
      requires Valid()
      modifies this
      ensures Valid()
      ensures envoi == AjouterArticle(ProduitDepuis(x, maintenant))
      ensures enregistres == Retrancher(old(enregistres), index)
      ensures 0 <= index < |old(enregistres)| ==> enregistres == old(enregistres)[..index] + old(enregistres)[index + 1..]
      ensures vusRecemment == old(vusRecemment)
    {
      envoi := AjouterArticle(ProduitDepuis(x, maintenant));
      enregistres := Retrancher(enregistres, index);
    }

    /** `clearCart`: dispatches VIDER_PANIER; the page's own lists are kept. */
    method ViderPanier() returns (envoi: ActionPanier)
      requires Valid()
      ensures envoi == ActionPanier.ViderPanier
      ensures forall e :: Reducteur(e, envoi) == EtatInitial
    {
      envoi := ActionPanier.ViderPanier;
    }

    /** `clearSavedItems`. */
    method ViderEnregistres()
      requires Valid()
      modifies this
      ensures Valid()
      ensures enregistres == [] && vusRecemment == old(vusRecemment)
    {
      enregistres := [];
    }
  }

  /** A product that comes back from the saved list is charged its base
      price: a promotion it had in the cart is lost. */
  lemma PromotionPerdue(a: ArticlePanier, maintenant: int)
    ensures PrixEffectif(ProduitDepuis(EntreeDepuis(a), maintenant)) == a.produit.prix
    ensures PrixEffectif(ProduitDepuis(EntreeDepuis(a), maintenant)) != PrixEffectif(a.produit)
            <==> a.produit.enPromotion && a.produit.prixPromotion.Some?
                 && a.produit.prixPromotion.value != 0.0 && a.produit.prixPromotion.value != a.produit.prix
  {
  }

  /** Saving line `k` for later and moving it straight back removes the line
      and appends a fresh line of quantity 1 at the end of the cart. */
  lemma SauverPuisRemettre(e: EtatPanier, k: nat, maintenant: int)
    requires IdsUniques(e.articles) && k < |e.articles|
    ensures var a := e.articles[k];
            var e1 := Reducteur(e, SupprimerArticle(a.produit.id));
            Reducteur(e1, AjouterArticle(ProduitDepuis(EntreeDepuis(a), maintenant))).articles
            == e.articles[..k] + e.articles[k + 1..] + [ArticlePanier(ProduitDepuis(EntreeDepuis(a), maintenant), 1)]
  {
    var a := e.articles[k];
    var e1 := Reducteur(e, SupprimerArticle(a.produit.id));
    SupprimerPresent(e, k);
    var reste := e.articles[..k] + e.articles[k + 1..];
    forall i | 0 <= i < |reste| ensures reste[i].produit.id != a.produit.id {
      if i < k {
        assert reste[i] == e.articles[i];
      } else {
        assert reste[i] == e.articles[i + 1];
      }
    }
    AjouterNouveau(e1, ProduitDepuis(EntreeDepuis(a), maintenant));
  }

  /** Each AJOUTER_ARTICLE raises the header count by one. */
  lemma NombreApresAjout(e: EtatPanier, p: Produit)
    requires IdsUniques(e.articles)
    ensures NombreArticles(Reducteur(e, AjouterArticle(p)).articles) == NombreArticles(e.articles) + 1
  {
    var f := (a: ArticlePanier) => a.quantite;
    match IndexArticle(e.articles, p.id) {
      case Some(k) =>
        AjouterExistant(e, p, k);
        SommeEntiereMiseAJour(e.articles, k, e.articles[k].(quantite := e.articles[k].quantite + 1), f);
      case None =>
        AjouterNouveau(e, p);
        var n := e.articles + [ArticlePanier(p, 1)];
        assert n[..|n| - 1] == e.articles;
    }
  }
}
