/** The order document of src/models/commande.ts: the status enumeration
    with its default, the minimum line quantity, and the save hook that
    appends one history entry when an order is created or its status
    changes. */
module ModeleCommande {
  import opened Wrappers
  import opened Types

  const CommentaireCreation: string := "Commande créée"
  const CommentaireMiseAJour: string := "Statut mis à jour"

  /** The `enum` check of the `statut` field. */
  function StatutDepuisTexte(s: string): (r: Option<StatutCommande>)
    ensures r.Some? ==> NomStatut(r.value) == s
  {
    if s == "en_attente" then Some(EnAttente)
    else if s == "confirmee" then Some(Confirmee)
    else if s == "annulee" then Some(Annulee)
    else if s == "en_preparation" then Some(EnPreparation)
    else if s == "prete" then Some(Prete)
    else if s == "livree" then Some(Livree)
    else None
  }

  /** Every status is stored under a name the enumeration accepts, and reads back as itself. */
  lemma StatutAllerRetour(st: StatutCommande)
    ensures StatutDepuisTexte(NomStatut(st)) == Some(st)
  {
  }

  /** Why a document fails validation. */
  datatype ErreurValidation = StatutInconnu(valeur: string) | QuantiteTropPetite(index: nat)

  /** Schema validation of the status and the product lines: a missing
      status takes the default `en_attente`, an unknown one is refused, and
      every line needs a quantity of at least 1. */
  function Valider(statut: Option<string>, produits: seq<LigneCommande>): (r: Result<StatutCommande, ErreurValidation>)
    ensures r.Ok? <==> (statut.None? || StatutDepuisTexte(statut.value).Some?)
                       && forall i :: 0 <= i < |produits| ==> produits[i].quantite >= 1
    ensures r.Ok? && statut.None? ==> r.value == EnAttente
    ensures r.Ok? && statut.Some? ==> NomStatut(r.value) == statut.value
    ensures r.Err? && r.error.QuantiteTropPetite? ==>
              r.error.index < |produits| && produits[r.error.index].quantite < 1
  {
    if statut.Some? && StatutDepuisTexte(statut.value).None? then Err(StatutInconnu(statut.value))
    else match PremiereQuantiteInvalide(produits)
      case Some(i) => Err(QuantiteTropPetite(i))
      case None => Ok(if statut.Some? then StatutDepuisTexte(statut.value).value else EnAttente)
  }

  /** Index of the first line with a quantity below 1. */
  function PremiereQuantiteInvalide(produits: seq<LigneCommande>): (r: Option<nat>)
    ensures r.None? <==> forall i :: 0 <= i < |produits| ==> produits[i].quantite >= 1
    ensures r.Some? ==> r.value < |produits| && produits[r.value].quantite < 1
  {
    if produits == [] then None
    else if produits[0].quantite < 1 then Some(0)
    else match PremiereQuantiteInvalide(produits[1..])
      case None => None
      case Some(i) => Some(i + 1)
  }

  /** The history after the hook: the stored one (or `[]` when missing),
      plus one entry when the order is new or its status changed. */
  function HistoriqueApres(historique: Option<seq<HistoriqueEvent>>, statut: StatutCommande,
                           estNouveau: bool, statutModifie: bool, maintenant: int): (r: seq<HistoriqueEvent>)
    ensures var base := if historique.Some? then historique.value else [];
            (estNouveau || statutModifie ==>
               |r| == |base| + 1 && r[..|base|] == base && r[|base|].statut == statut && r[|base|].date == maintenant)
            && (!(estNouveau || statutModifie) ==> r == base)
    ensures estNouveau ==> r[|r| - 1].commentaire == Some(CommentaireCreation)
    ensures !estNouveau && statutModifie ==> r[|r| - 1].commentaire == Some(CommentaireMiseAJour)
  {
    var base := if historique.Some? then historique.value else [];
    if estNouveau || statutModifie then
      base + [HistoriqueEvent(statut, maintenant, Some(if estNouveau then CommentaireCreation else CommentaireMiseAJour))]
    else base
  }

  /** The saved document: the fields the hook reads and writes. */
  class DocumentCommande {
    var statut: StatutCommande
    var historique: Option<seq<HistoriqueEvent>>
    var estNouveau: bool
    var statutModifie: bool

    constructor (statut: StatutCommande, historique: Option<seq<HistoriqueEvent>>, estNouveau: bool, statutModifie: bool)
      ensures this.statut == statut && this.historique == historique
      ensures this.estNouveau == estNouveau && this.statutModifie == statutModifie
    {
      this.statut := statut;
      this.historique := historique;
      this.estNouveau := estNouveau;
      this.statutModifie := statutModifie;
    }

    /** `pre('save')`: initialise a missing history, then push the entry. */
    method PreSave(maintenant: int)
      modifies this
      ensures historique == Some(HistoriqueApres(old(historique), statut, estNouveau, statutModifie, maintenant))
      ensures statut == old(statut) && estNouveau == old(estNouveau) && statutModifie == old(statutModifie)
    {
      if historique.None? {
        historique := Some([]);
      }
      if estNouveau || statutModifie {
        var commentaire := if estNouveau then CommentaireCreation else CommentaireMiseAJour;
        historique := Some(historique.value + [HistoriqueEvent(statut, maintenant, Some(commentaire))]);
      }
    }
  }

  /** Creating an order and then changing its status twice records the
      three statuses in order, the first entry marked as the creation. */
  lemma CreationPuisChangements(s0: StatutCommande, s1: StatutCommande, s2: StatutCommande, t0: int, t1: int, t2: int)
    ensures var h0 := HistoriqueApres(None, s0, true, true, t0);
            var h1 := HistoriqueApres(Some(h0), s1, false, true, t1);
            var h2 := HistoriqueApres(Some(h1), s2, false, true, t2);
            |h2| == 3 && h2[0].statut == s0 && h2[1].statut == s1 && h2[2].statut == s2
            && h2[0].commentaire == Some(CommentaireCreation)
            && h2[1].commentaire == Some(CommentaireMiseAJour) && h2[2].commentaire == Some(CommentaireMiseAJour)
  {
    var h0 := HistoriqueApres(None, s0, true, true, t0);
    var h1 := HistoriqueApres(Some(h0), s1, false, true, t1);
    var h2 := HistoriqueApres(Some(h1), s2, false, true, t2);
    assert h2[..2] == h1 && h1[..1] == h0;
  }

  /** Saves that change neither novelty nor status leave the history as it was. */
  lemma SauvegardeSansChangement(h: seq<HistoriqueEvent>, st: StatutCommande, t: int)
    ensures HistoriqueApres(Some(h), st, false, false, t) == h
  {
  }
}
