/** The admin dashboard of src/app/admin/page.tsx: the product search and
    the product list with its displayed count, which a deletion updates. */
module TableauDeBordAdmin {
  import opened Wrappers
  import opened Listes
  import opened Texte
  import opened Types

  /** A product matches when its lower-cased name or description contains
      the lower-cased query. */
  predicate Correspond(p: Produit, recherche: string)
  {
    Contient(EnMinuscules(p.nom), EnMinuscules(recherche))
    || Contient(EnMinuscules(p.description), EnMinuscules(recherche))
  }

  /** The guard of the search filter. */
  function Correspondant(recherche: string): Produit -> bool
  {
    (p: Produit) => Correspond(p, recherche)
  }

  /** `produitsFiltres`: an empty query shows every product; any other
      keeps, in order, the products that match it. */
  function ProduitsFiltres(produits: seq<Produit>, recherche: string): (r: seq<Produit>)
    ensures recherche == "" ==> r == produits
    ensures forall i :: 0 <= i < |r| ==> Correspond(r[i], recherche)
    ensures forall i :: 0 <= i < |produits| ==> Correspond(produits[i], recherche) ==> produits[i] in r
  {
    if recherche == "" then
      assert forall i :: 0 <= i < |produits| ==> Correspond(produits[i], recherche) by {
        forall i | 0 <= i < |produits| ensures Correspond(produits[i], recherche) {
          ContientVide(EnMinuscules(produits[i].nom));
        }
      }
      produits
    else
      FiltrerGarde(produits, Correspondant(recherche));
      Filtrer(produits, Correspondant(recherche))
  }

  /** The search ignores the case of the query. */
  lemma RechercheInsensibleALaCasse(produits: seq<Produit>, recherche: string)
    ensures ProduitsFiltres(produits, EnMinuscules(recherche)) == ProduitsFiltres(produits, recherche)
  {
    MinusculesIdempotent(recherche);
    if recherche != "" {
      FiltrerExtensionnel(produits, Correspondant(EnMinuscules(recherche)), Correspondant(recherche));
    }
  }

  /** Typing more of a query only narrows the list: what a query shows, each
      of its prefixes shows too. */
  lemma RechercheAffinee(produits: seq<Produit>, recherche: string, debut: string, i: nat)
    requires debut <= recherche && i < |ProduitsFiltres(produits, recherche)|
    ensures ProduitsFiltres(produits, recherche)[i] in ProduitsFiltres(produits, debut)
  {
    var p := ProduitsFiltres(produits, recherche)[i];
    var q := EnMinuscules(recherche);
    var d := EnMinuscules(debut);
    assert d <= q;
    if Contient(EnMinuscules(p.nom), q) {
      ContientPrefixe(EnMinuscules(p.nom), q, d);
    } else {
      ContientPrefixe(EnMinuscules(p.description), q, d);
    }
    assert Correspond(p, debut);
    assert p in produits;
  }

  /** No two products share an id. */
  predicate IdsDistincts(produits: seq<Produit>)
  {
    forall i, j :: 0 <= i < j < |produits| ==> produits[i].id != produits[j].id
  }

  /** The guard of the deletion filter. */
  function AutreQue(id: string): Produit -> bool
  {
    (p: Produit) => p.id != id
  }

  /** Deleting a listed product shortens a list with distinct ids by exactly one. */
  lemma SuppressionUnSeul(produits: seq<Produit>, k: nat)
    requires IdsDistincts(produits) && k < |produits|
    ensures |Filtrer(produits, AutreQue(produits[k].id))| == |produits| - 1
  {
    FiltrerUnSeul(produits, AutreQue(produits[k].id), k);
  }

  /** Deleting a listed product from a list with distinct ids keeps the ids
      distinct and removes exactly one entry. */
  lemma SuppressionCoherente(produits: seq<Produit>, k: nat)
    requires IdsDistincts(produits) && k < |produits|
    ensures |Filtrer(produits, AutreQue(produits[k].id))| == |produits| - 1
    ensures IdsDistincts(Filtrer(produits, AutreQue(produits[k].id)))
  {
    SuppressionUnSeul(produits, k);
    FiltrerSansDoublonIds(produits, AutreQue(produits[k].id));
  }

  /** Deleting an id the list does not hold leaves the list as it was. */
  lemma SuppressionAbsente(produits: seq<Produit>, id: string)
    requires forall i :: 0 <= i < |produits| ==> produits[i].id != id
    ensures Filtrer(produits, AutreQue(id)) == produits
  {
    FiltrerIdentite(produits, AutreQue(id));
  }

  class TableauDeBord {
    var produits: seq<Produit>
    var totalProduits: int
    var recherche: string

    /** The displayed count is the number of listed products. */
    ghost predicate Coherent()
      reads this
    {
      totalProduits == |produits| && IdsDistincts(produits)
    }

    constructor ()
      ensures produits == [] && totalProduits == 0 && recherche == ""
      ensures Coherent()
    {
      produits := [];
      totalProduits := 0;
      recherche := "";
    }

    /** The loading effect: the fetched list and its length; a failed request
      changes nothing. */
    method Charger(reponse: Option<seq<Produit>>)
      modifies this
      ensures reponse.Some? ==> produits == reponse.value && totalProduits == |reponse.value|
      ensures reponse.None? ==> produits == old(produits) && totalProduits == old(totalProduits)
      ensures recherche == old(recherche)
      ensures reponse.Some? && IdsDistincts(reponse.value) ==> Coherent()
    {
      if reponse.Some? {
        produits := reponse.value;
        totalProduits := |reponse.value|;
      }
    }

    /** `supprimerProduit`: `confirme` is the answer to the confirmation
      dialog and `reussite` the outcome of the request. A confirmed,
      successful deletion removes that id and lowers the count by one;
      otherwise nothing changes. Deleting a listed product keeps the count
      equal to the list length. */
    method SupprimerProduit(id: string, confirme: bool, reussite: bool)
      modifies this
      ensures confirme && reussite ==>
                produits == Filtrer(old(produits), AutreQue(id)) && totalProduits == old(totalProduits) - 1
      ensures !(confirme && reussite) ==> produits == old(produits) && totalProduits == old(totalProduits)
      ensures recherche == old(recherche)
      ensures old(Coherent()) && (exists k :: 0 <= k < |old(produits)| && old(produits)[k].id == id) ==> Coherent()
    {
      if !confirme {
        return;
      }
      if reussite {
        ghost var avant := produits;
        produits := Filtrer(produits, AutreQue(id));
        totalProduits := totalProduits - 1;
        if totalProduits + 1 == |avant| && IdsDistincts(avant) && exists k :: 0 <= k < |avant| && avant[k].id == id {
          var k :| 0 <= k < |avant| && avant[k].id == id;
          SuppressionCoherente(avant, k);
        }
      }
    }
  }

  /** Filtering keeps ids distinct. */
  lemma {:induction false} FiltrerSansDoublonIds(produits: seq<Produit>, garde: Produit -> bool)
    requires IdsDistincts(produits)
    ensures IdsDistincts(Filtrer(produits, garde))
  {
    if produits != [] {
      FiltrerSansDoublonIds(produits[1..], garde);
      var reste := Filtrer(produits[1..], garde);
      forall i | 0 <= i < |reste| ensures reste[i].id != produits[0].id {
        assert reste[i] in produits[1..];
      }
    }
  }

  /** After a deletion of an id the list does not hold, the list keeps its
      length while the count drops by one, so the count is one below it. */
  lemma CompteDecaleSiAbsent(produits: seq<Produit>, total: int, id: string)
    requires total == |produits|
    requires forall i :: 0 <= i < |produits| ==> produits[i].id != id
    ensures |Filtrer(produits, AutreQue(id))| == total
    ensures total - 1 != |Filtrer(produits, AutreQue(id))|
  {
    SuppressionAbsente(produits, id);
  }
}
