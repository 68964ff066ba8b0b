/** The admin orders page of src/app/admin/commandes/page.tsx: the order
    total, the status labels and badge colours, the status filter, and the
    list kept in state, which a status update rewrites and a deletion
    shortens. */
module PageCommandesAdmin {
  import opened Wrappers
  import opened Listes
  import opened Types
  import opened ModeleCommande

  /** Price of one line, `item.prix * item.quantite`. */
  function MontantArticle(l: LigneCommande): real
  {
    l.prix * l.quantite as real
  }

  /** `calculerTotal`: the lines' amounts summed from 0. It is shown both as
      the sub-total and as the total, shipping being displayed as free. */
  function CalculerTotal(c: Commande): (r: real)
    ensures c.produits == [] ==> r == 0.0
    ensures (forall i :: 0 <= i < |c.produits| ==> c.produits[i].prix >= 0.0 && c.produits[i].quantite >= 0)
            ==> r >= 0.0
  {
    assert forall l: LigneCommande :: l.prix >= 0.0 && l.quantite >= 0 ==> MontantArticle(l) >= 0.0;
    SommeReellePositive(c.produits, MontantArticle);
    SommeReelle(c.produits, MontantArticle)
  }

  /** Lines that pass the schema check and carry no negative price give a
      total that is not negative. */
  lemma {:induction false} TotalNonNegatif(lignes: seq<LigneCommande>)
    requires forall i :: 0 <= i < |lignes| ==> lignes[i].prix >= 0.0
    requires Valider(None, lignes).Ok?
    ensures SommeReelle(lignes, MontantArticle) >= 0.0
  {
    if lignes != [] {
      var n := |lignes| - 1;
      var debut := lignes[..n];
      assert forall i :: 0 <= i < |debut| ==> debut[i] == lignes[i];
      TotalNonNegatif(debut);
      assert lignes[n].quantite >= 1;
      assert MontantArticle(lignes[n]) >= 0.0;
    }
  }

  /** Label of a known status. */
  function LibelleStatut(st: StatutCommande): string
  {
    match st
    case EnAttente => "En attente"
    case Confirmee => "Confirmée"
    case Annulee => "Annulée"
    case EnPreparation => "En préparation"
    case Prete => "Prête"
    case Livree => "Livrée"
  }

  /** `getStatutLabel`: a missing argument means `en_attente`; a string that
      names no status reads `Inconnu`. */
  function Libelle(statut: Option<string>): (r: string)
    ensures statut.None? ==> r == "En attente"
    ensures r == "Inconnu" <==> statut.Some? && StatutDepuisTexte(statut.value).None?
    ensures statut.Some? && StatutDepuisTexte(statut.value).Some? ==>
              r == LibelleStatut(StatutDepuisTexte(statut.value).value)
  {
    var s := if statut.Some? then statut.value else "en_attente";
    match StatutDepuisTexte(s)
    case Some(st) => LibelleStatut(st)
    case None => "Inconnu"
  }

  /** Two different statuses never share a label. */
  lemma LibellesDistincts(a: StatutCommande, b: StatutCommande)
    requires a != b
    ensures Libelle(Some(NomStatut(a))) != Libelle(Some(NomStatut(b)))
  {
    StatutAllerRetour(a);
    StatutAllerRetour(b);
  }

  const BadgeJaune: string := "bg-yellow-100 text-yellow-800"
  const BadgeBleu: string := "bg-blue-100 text-blue-800"
  const BadgeRouge: string := "bg-red-100 text-red-800"
  const BadgeViolet: string := "bg-purple-100 text-purple-800"
  const BadgeVert: string := "bg-green-100 text-green-800"
  const BadgeGris: string := "bg-gray-100 text-gray-800"

  /** `getBadgeClass`: one colour per status, grey for anything else, and a
      missing argument means `en_attente`. */
  function Badge(statut: Option<string>): (r: string)
    ensures statut.None? ==> r == BadgeJaune
    ensures statut.Some? && StatutDepuisTexte(statut.value).None? ==> r == BadgeGris
  {
    var s := if statut.Some? then statut.value else "en_attente";
    match StatutDepuisTexte(s)
    case Some(EnAttente) => BadgeJaune
    case Some(Confirmee) => BadgeBleu
    case Some(Annulee) => BadgeRouge
    case Some(EnPreparation) => BadgeViolet
    case Some(Prete) => BadgeVert
    case Some(Livree) => BadgeGris
    case None => BadgeGris
  }

  /** The grey badge is shared by delivered orders and unknown statuses, and
      by nothing else. */
  lemma BadgeGrisPartage(s: string)
    ensures Badge(Some(s)) == BadgeGris <==> s == "livree" || StatutDepuisTexte(s).None?
  {
  }

  /** The guard of the status filter. */
  function DeStatut(filtre: string): Commande -> bool
  {
    (c: Commande) => NomStatut(c.statut) == filtre
  }

  /** `filtrerCommandes`: `'tous'` shows the whole list; any other value
      keeps, in order, the orders whose status is written that way. */
  function FiltrerCommandes(commandes: seq<Commande>, filtre: string): (r: seq<Commande>)
    ensures filtre == "tous" ==> r == commandes
    ensures filtre != "tous" ==> forall i :: 0 <= i < |r| ==> NomStatut(r[i].statut) == filtre
    ensures forall i :: 0 <= i < |commandes| ==>
              (filtre == "tous" || NomStatut(commandes[i].statut) == filtre) ==> commandes[i] in r
  {
    if filtre == "tous" then commandes
    else
      FiltrerGarde(commandes, DeStatut(filtre));
      Filtrer(commandes, DeStatut(filtre))
  }

  /** A filter value that names no status shows nothing. */
  lemma FiltreInconnuVide(commandes: seq<Commande>, filtre: string)
    requires filtre != "tous" && StatutDepuisTexte(filtre).None?
    ensures FiltrerCommandes(commandes, filtre) == []
  {
    var r := FiltrerCommandes(commandes, filtre);
    if r != [] {
      StatutAllerRetour(r[0].statut);
    }
  }

  /** Number of orders the filter shows for one status. */
  function Effectif(commandes: seq<Commande>, st: StatutCommande): nat
  {
    |FiltrerCommandes(commandes, NomStatut(st))|
  }

  /** The count read from the head of the list: status names are distinct,
      so the first order counts for its own status only. */
  lemma EffectifTete(commandes: seq<Commande>, st: StatutCommande)
    requires commandes != []
    ensures Effectif(commandes, st) == (if commandes[0].statut == st then 1 else 0) + Effectif(commandes[1..], st)
  {
    StatutAllerRetour(st);
    StatutAllerRetour(commandes[0].statut);
  }

  /** The six status filters split the list: every order is shown under
      exactly one of them. */
  lemma {:induction false} RepartitionParStatut(commandes: seq<Commande>)
    ensures Effectif(commandes, EnAttente) + Effectif(commandes, Confirmee) + Effectif(commandes, Annulee)
            + Effectif(commandes, EnPreparation) + Effectif(commandes, Prete) + Effectif(commandes, Livree)
            == |commandes|
  {
    if commandes != [] {
      RepartitionParStatut(commandes[1..]);
      EffectifTete(commandes, EnAttente);
      EffectifTete(commandes, Confirmee);
      EffectifTete(commandes, Annulee);
      EffectifTete(commandes, EnPreparation);
      EffectifTete(commandes, Prete);
      EffectifTete(commandes, Livree);
    }
  }

  /** `prev.map(c => c._id === m._id ? m : c)`. */
  function Remplacer(commandes: seq<Commande>, m: Commande): (r: seq<Commande>)
    ensures |r| == |commandes|
    ensures forall i :: 0 <= i < |r| ==> r[i] == if commandes[i].id == m.id then m else commandes[i]
  {
    if commandes == [] then []
    else [if commandes[0].id == m.id then m else commandes[0]] + Remplacer(commandes[1..], m)
  }

  /** Replacing keeps every position's id, so the list keeps its order and
      its set of ids. */
  lemma RemplacerGardeLesIds(commandes: seq<Commande>, m: Commande)
    ensures forall i :: 0 <= i < |commandes| ==> Remplacer(commandes, m)[i].id == commandes[i].id
  {
  }

  /** A successful status update moves the order from its old status's
      filter to its new one and leaves every other count alone, as long as
      ids are unique. */
  lemma {:induction false} MiseAJourDeplace(commandes: seq<Commande>, m: Commande, k: nat, st: StatutCommande)
    requires k < |commandes| && commandes[k].id == m.id
    requires forall j :: 0 <= j < |commandes| && j != k ==> commandes[j].id != m.id
    ensures Effectif(Remplacer(commandes, m), st)
            == Effectif(commandes, st) - (if commandes[k].statut == st then 1 else 0) + (if m.statut == st then 1 else 0)
  {
    var t := commandes[1..];
    var r := Remplacer(commandes, m);
    var reste := Remplacer(t, m);
    assert r == [if commandes[0].id == m.id then m else commandes[0]] + reste;
    assert r[1..] == reste;
    EffectifTete(commandes, st);
    EffectifTete(r, st);
    if k == 0 {
      assert r[0] == m;
      forall j | 0 <= j < |t| ensures t[j].id != m.id {
        assert t[j] == commandes[j + 1];
      }
      RemplacerAbsent(t, m);
    } else {
      assert r[0] == commandes[0];
      forall j | 0 <= j < |t| && j != k - 1 ensures t[j].id != m.id {
        assert t[j] == commandes[j + 1];
      }
      MiseAJourDeplace(t, m, k - 1, st);
    }
  }

  /** A returned order whose id is not listed leaves the list as it was. */
  lemma RemplacerAbsent(commandes: seq<Commande>, m: Commande)
    requires forall j :: 0 <= j < |commandes| ==> commandes[j].id != m.id
    ensures Remplacer(commandes, m) == commandes
  {
  }

  /** The guard of the deletion filter. */
  function AutreQue(id: string): Commande -> bool
  {
    (c: Commande) => c.id != id
  }

  /** Deleting an order while a filter is shown is the same as filtering
      first and deleting from the view. */
  lemma SuppressionEtFiltre(commandes: seq<Commande>, id: string, filtre: string)
    ensures FiltrerCommandes(Filtrer(commandes, AutreQue(id)), filtre)
            == Filtrer(FiltrerCommandes(commandes, filtre), AutreQue(id))
  {
    if filtre != "tous" {
      FiltrerSuccessifs(commandes, AutreQue(id), DeStatut(filtre),
                        (c: Commande) => c.id != id && NomStatut(c.statut) == filtre);
      FiltrerSuccessifs(commandes, DeStatut(filtre), AutreQue(id),
                        (c: Commande) => c.id != id && NomStatut(c.statut) == filtre);
    }
  }

  /** The body of the PUT request `updateStatutCommande` sends. */
  datatype Requete = Requete(id: string, statut: StatutCommande, commentaire: string)

  /** The comment sent with a status change: the typed one, or a default
      quoting `getStatutLabel` of the picked status, which is that
      status's own label. */
  function CommentaireEnvoye(commentaire: string, st: StatutCommande): (r: string)
    ensures commentaire != "" ==> r == commentaire
    ensures commentaire == "" ==> r != "" && r[|r| - 1] == '"'
    ensures commentaire == "" ==> r == "Statut changé à \"" + LibelleStatut(st) + "\""
  {
    if commentaire != "" then commentaire
    else
      StatutAllerRetour(st);
      "Statut changé à \"" + Libelle(Some(NomStatut(st))) + "\""
  }

  class PageCommandes {
    var commandes: seq<Commande>
    var filtre: string
    var selection: Option<Commande>
    /** The status picked in the detail panel, `None` for `''`. */
    var statutChoisi: Option<StatutCommande>
    var commentaire: string

    constructor ()
      ensures commandes == [] && filtre == "tous" && selection == None
      ensures statutChoisi == None && commentaire == ""
    {
      commandes := [];
      filtre := "tous";
      selection := None;
      statutChoisi := None;
      commentaire := "";
    }

    /** The loading effect: the fetched list replaces the state; a failed
      request leaves it as it was. */
    method Charger(reponse: Option<seq<Commande>>)
      modifies this
      ensures commandes == if reponse.Some? then reponse.value else old(commandes)
      ensures filtre == old(filtre) && selection == old(selection)
      ensures statutChoisi == old(statutChoisi) && commentaire == old(commentaire)
    {
      if reponse.Some? {
        commandes := reponse.value;
      }
    }

    /** `updateStatutCommande`. Without a selected order or a chosen status
      no request is made. Otherwise the request carries the order's id, the
      status and the comment; `reponse` is the updated order the server
      returns, `None` when the request failed. On success the entry with the
      returned id is replaced, the returned order becomes the selection and
      the form is cleared; on failure nothing changes. */
    method MettreAJourStatut(reponse: Option<Commande>) returns (requete: Option<Requete>)
      modifies this
      ensures requete.Some? <==> old(selection).Some? && old(statutChoisi).Some?
      ensures requete.Some? ==>
                requete.value == Requete(old(selection).value.id, old(statutChoisi).value,
                                         CommentaireEnvoye(old(commentaire), old(statutChoisi).value))
      ensures requete.Some? && reponse.Some? ==>
                commandes == Remplacer(old(commandes), reponse.value) && selection == reponse
                && statutChoisi == None && commentaire == ""
      ensures !(requete.Some? && reponse.Some?) ==>
                commandes == old(commandes) && selection == old(selection)
                && statutChoisi == old(statutChoisi) && commentaire == old(commentaire)
      ensures filtre == old(filtre)
    {
      if selection.None? || statutChoisi.None? {
        return None;
      }
      requete := Some(Requete(selection.value.id, statutChoisi.value, CommentaireEnvoye(commentaire, statutChoisi.value)));
      if reponse.Some? {
        commandes := Remplacer(commandes, reponse.value);
        selection := reponse;
        statutChoisi := None;
        commentaire := "";
      }
    }

    /** `deleteCommande`: `reussite` is the outcome of the DELETE request. On
      success the orders with that id leave the list and the selection is
      cleared if it is that order; on failure nothing changes. */
    method SupprimerCommande(id: string, reussite: bool)
      modifies this
      ensures reussite ==> commandes == Filtrer(old(commandes), AutreQue(id))
      ensures reussite ==> selection == if old(selection).Some? && old(selection).value.id == id
                                       then None else old(selection)
      ensures reussite ==> forall i :: 0 <= i < |commandes| ==> commandes[i].id != id
      ensures !reussite ==> commandes == old(commandes) && selection == old(selection)
      ensures filtre == old(filtre) && statutChoisi == old(statutChoisi) && commentaire == old(commentaire)
    {
      if reussite {
        commandes := Filtrer(commandes, AutreQue(id));
        if selection.Some? && selection.value.id == id {
          selection := None;
        }
      }
    }

    /** `deleteAllCommandes`: on success the list is emptied and the
      selection cleared; on failure nothing changes. */
    method SupprimerToutes(reussite: bool)
      modifies this
      ensures reussite ==> commandes == [] && selection == None
      ensures !reussite ==> commandes == old(commandes) && selection == old(selection)
      ensures filtre == old(filtre) && statutChoisi == old(statutChoisi) && commentaire == old(commentaire)
    {
      if reussite {
        commandes := [];
        selection := None;
      }
    }
  }
}
