/** The shopping-cart reducer of src/context/ContextePanier.tsx: a total
    function from a cart state and an action to the next cart state, which
    re-derives sub-total, shipping fee and total after each change. */
module ContextePanier {
  import opened Wrappers
  import opened Listes
  import opened Types

  const SeuilLivraisonGratuite: real := 30.0
  const FraisLivraisonStandard: real := 3.5

  datatype EtatPanier = EtatPanier(
    articles: seq<ArticlePanier>,
    total: real,
    sousTotal: real,
    reduction: real,
    fraisLivraison: real)

  /** The seven actions, plus any other `type` tag, which the `default`
      branch of the reducer ignores. */
  datatype ActionPanier =
    | AjouterArticle(produit: Produit)
    | SupprimerArticle(id: string)
    | ModifierQuantite(id: string, quantite: int)
    | AppliquerReduction(reduction: real)
    | MettreAJourLivraison(fraisLivraison: real)
    | ViderPanier
    | InitialiserPanier(lignes: seq<ArticlePanier>)
    | ActionInconnue(nom: string)

  const EtatInitial: EtatPanier := EtatPanier([], 0.0, 0.0, 0.0, 0.0)

  /** Free shipping from the threshold on, the standard fee below it. */
  function CalculerFraisLivraison(sousTotal: real): (frais: real)
    ensures frais == 0.0 <==> sousTotal >= SeuilLivraisonGratuite
    ensures frais != 0.0 <==> frais == FraisLivraisonStandard
  {
    if sousTotal >= SeuilLivraisonGratuite then 0.0 else FraisLivraisonStandard
  }

  /** `Math.max(0, sousTotal - reduction) + fraisLivraison`. */
  function CalculerTotal(sousTotal: real, reduction: real, fraisLivraison: real): (total: real)
    ensures total >= fraisLivraison
    ensures total >= sousTotal - reduction + fraisLivraison
    ensures total == fraisLivraison || total == sousTotal - reduction + fraisLivraison
  {
    (if sousTotal - reduction > 0.0 then sousTotal - reduction else 0.0) + fraisLivraison
  }

  /** The total agrees with sub-total, discount and fee. */
  predicate TotalCoherent(e: EtatPanier)
  {
    e.total == CalculerTotal(e.sousTotal, e.reduction, e.fraisLivraison)
  }

  /** Amount of one cart line: effective unit price times quantity. */
  function MontantLigne(a: ArticlePanier): real
  {
    PrixEffectif(a.produit) * a.quantite as real
  }

  /** The sub-total recomputed from the lines, as INITIALISER_PANIER does. */
  function SommeLignes(articles: seq<ArticlePanier>): real
  {
    SommeReelle(articles, MontantLigne)
  }

  /** At most one line per product id. */
  predicate IdsUniques(articles: seq<ArticlePanier>)
  {
    forall i, j :: 0 <= i < j < |articles| ==> articles[i].produit.id != articles[j].produit.id
  }

  /** Everything the reducer maintains when fed consistent inputs. */
  predicate Coherent(e: EtatPanier)
  {
    IdsUniques(e.articles) && e.sousTotal == SommeLignes(e.articles) && TotalCoherent(e)
  }

  /** Position of the line `articles.find(a => a._id === id)` returns. */
  function IndexArticle(articles: seq<ArticlePanier>, id: string): (k: Option<nat>)
    ensures k.None? <==> forall i :: 0 <= i < |articles| ==> articles[i].produit.id != id
    ensures k.Some? ==> k.value < |articles| && articles[k.value].produit.id == id
    ensures k.Some? ==> forall i :: 0 <= i < k.value ==> articles[i].produit.id != id
  {
    if articles == [] then None
    else if articles[0].produit.id == id then Some(0)
    else match IndexArticle(articles[1..], id)
      case None => None
      case Some(j) => Some(j + 1)
  }

  /** `articles.map(a => a._id === id ? {...a, quantite: a.quantite + 1} : a)`. */
  function Incrementer(articles: seq<ArticlePanier>, id: string): seq<ArticlePanier>
  {
    seq(|articles|, i requires 0 <= i < |articles| =>
      if articles[i].produit.id == id then articles[i].(quantite := articles[i].quantite + 1)
      else articles[i])
  }

  /** `articles.map(a => a._id === id ? {...a, quantite} : a)`. */
  function FixerQuantite(articles: seq<ArticlePanier>, id: string, quantite: int): seq<ArticlePanier>
  {
    seq(|articles|, i requires 0 <= i < |articles| =>
      if articles[i].produit.id == id then articles[i].(quantite := quantite)
      else articles[i])
  }

  /** `articles.filter(a => a._id !== id)`. */
  function Retirer(articles: seq<ArticlePanier>, id: string): seq<ArticlePanier>
  {
    Filtrer(articles, (a: ArticlePanier) => a.produit.id != id)
  }

  /** The new lines and sub-total, with fee and total derived from them; the
      discount is kept. */
  function AvecLignes(e: EtatPanier, articles: seq<ArticlePanier>, sousTotal: real): (r: EtatPanier)
    ensures r.articles == articles && r.sousTotal == sousTotal
    ensures r.reduction == e.reduction && TotalCoherent(r)
    ensures r.fraisLivraison == CalculerFraisLivraison(r.sousTotal)
  {
    var frais := CalculerFraisLivraison(sousTotal);
    e.(articles := articles, sousTotal := sousTotal, fraisLivraison := frais,
       total := CalculerTotal(sousTotal, e.reduction, frais))
  }

  /** The AJOUTER_ARTICLE branch. */
  function ReduireAjout(e: EtatPanier, p: Produit): EtatPanier
  {
    var prix := PrixEffectif(p);
    var articles :=
      if IndexArticle(e.articles, p.id).Some? then Incrementer(e.articles, p.id)
      else e.articles + [ArticlePanier(p, 1)];
    AvecLignes(e, articles, e.sousTotal + prix)
  }

  /** The SUPPRIMER_ARTICLE branch. */
  function ReduireSuppression(e: EtatPanier, id: string): EtatPanier
  {
    match IndexArticle(e.articles, id)
    case None => e
    case Some(k) =>
      var a := e.articles[k];
      AvecLignes(e, Retirer(e.articles, id), e.sousTotal - MontantLigne(a))
  }

  /** `prix * diffQuantite`: how much a line's amount moves when its
      quantity is set to `quantite`. */
  function Ecart(a: ArticlePanier, quantite: int): real
  {
    PrixEffectif(a.produit) * (quantite - a.quantite) as real
  }

  /** The MODIFIER_QUANTITE branch once the line is found and the quantity is positive. */
  function ReduireModification(e: EtatPanier, id: string, quantite: int): EtatPanier
    requires IndexArticle(e.articles, id).Some?
  {
    var a := e.articles[IndexArticle(e.articles, id).value];
    AvecLignes(e, FixerQuantite(e.articles, id, quantite),
               e.sousTotal + Ecart(a, quantite))
  }

  /** The INITIALISER_PANIER branch: everything recomputed from the lines,
      discount reset. */
  function ReduireInitialisation(lignes: seq<ArticlePanier>): (r: EtatPanier)
    ensures r.articles == lignes && r.sousTotal == SommeLignes(lignes) && r.reduction == 0.0
    ensures r.fraisLivraison == CalculerFraisLivraison(r.sousTotal) && TotalCoherent(r)
  {
    var sousTotal := SommeLignes(lignes);
    var frais := CalculerFraisLivraison(sousTotal);
    EtatPanier(lignes, CalculerTotal(sousTotal, 0.0, frais), sousTotal, 0.0, frais)
  }

  /** `reducteurPanier`. The only recursive call turns MODIFIER_QUANTITE with
      a non-positive quantity into SUPPRIMER_ARTICLE. Every result either is
      the input state itself or has a coherent total. */
  function Reducteur(e: EtatPanier, action: ActionPanier): (r: EtatPanier)
    ensures r == e || TotalCoherent(r)
    ensures TotalCoherent(e) ==> TotalCoherent(r)
    decreases if action.ModifierQuantite? then 1 else 0
  {
    match action
    case AjouterArticle(p) => ReduireAjout(e, p)
    case SupprimerArticle(id) => ReduireSuppression(e, id)
    case ModifierQuantite(id, quantite) =>
      if IndexArticle(e.articles, id).None? then e
      else if quantite <= 0 then Reducteur(e, SupprimerArticle(id))
      else ReduireModification(e, id, quantite)
    case AppliquerReduction(reduction) =>
      e.(reduction := reduction, total := CalculerTotal(e.sousTotal, reduction, e.fraisLivraison))
    case MettreAJourLivraison(frais) =>
      e.(fraisLivraison := frais, total := CalculerTotal(e.sousTotal, e.reduction, frais))
    case ViderPanier => EtatInitial
    case InitialiserPanier(lignes) => ReduireInitialisation(lignes)
    case ActionInconnue(_) => e
  }

  /** A sequence of dispatches applied in order. */
  function Appliquer(e: EtatPanier, actions: seq<ActionPanier>): EtatPanier
    decreases |actions|
  {
    if actions == [] then e else Appliquer(Reducteur(e, actions[0]), actions[1..])
  }

  /** Dispatching `a` and then `reste` is dispatching `[a] + reste`. */
  lemma AppliquerTete(e: EtatPanier, a: ActionPanier, reste: seq<ActionPanier>)
    ensures Appliquer(e, [a] + reste) == Appliquer(Reducteur(e, a), reste)
  {
    assert ([a] + reste)[0] == a && ([a] + reste)[1..] == reste;
  }

  // ---------------------------------------------------------------------
  // Derived fields

  /** Every state reachable from the initial state by any dispatches has
      `total == max(0, sousTotal - reduction) + fraisLivraison`. */
  lemma {:induction false} TotalToujoursCoherent(e: EtatPanier, actions: seq<ActionPanier>)
    requires TotalCoherent(e)
    ensures TotalCoherent(Appliquer(e, actions))
    decreases |actions|
  {
    if actions != [] {
      TotalToujoursCoherent(Reducteur(e, actions[0]), actions[1..]);
    }
  }

  lemma EtatInitialCoherent()
    ensures Coherent(EtatInitial)
  {
  }

  /** Actions that touch the lines derive the fee from the new sub-total; the
      fee override stores its argument verbatim; clearing gives a zero fee. */
  lemma RegleFraisLivraison(e: EtatPanier, action: ActionPanier)
    ensures action.AjouterArticle? || action.InitialiserPanier?
            || ((action.SupprimerArticle? || action.ModifierQuantite?) && IndexArticle(e.articles, action.id).Some?)
            ==> Reducteur(e, action).fraisLivraison
                == if Reducteur(e, action).sousTotal >= 30.0 then 0.0 else 3.5
    ensures action.MettreAJourLivraison? ==> Reducteur(e, action).fraisLivraison == action.fraisLivraison
    ensures action.ViderPanier? ==> Reducteur(e, action).fraisLivraison == 0.0 && Reducteur(e, action).sousTotal == 0.0
  {
  }

  // ---------------------------------------------------------------------
  // Sub-total bookkeeping

  /** The effective unit price of the stored line for `p`'s id equals that of
      `p`: AJOUTER_ARTICLE adds the payload's price, not the stored line's. */
  predicate PrixCompatibles(articles: seq<ArticlePanier>, p: Produit)
  {
    forall i :: 0 <= i < |articles| && articles[i].produit.id == p.id
      ==> PrixEffectif(articles[i].produit) == PrixEffectif(p)
  }

  /** What a caller must guarantee for the reducer to keep a coherent state:
      consistent prices on re-add, and no duplicate ids in a restored list. */
  predicate ActionCompatible(e: EtatPanier, action: ActionPanier)
  {
    (action.AjouterArticle? ==> PrixCompatibles(e.articles, action.produit))
    && (action.InitialiserPanier? ==> IdsUniques(action.lignes))
  }

  /** With unique ids, the sum of lines changes by the amount of the one line replaced. */
  lemma SommeMiseAJour(articles: seq<ArticlePanier>, k: nat, x: ArticlePanier)
    requires k < |articles|
    ensures SommeLignes(articles[k := x]) == SommeLignes(articles) - MontantLigne(articles[k]) + MontantLigne(x)
  {
    var s := articles;
    assert s == s[..k] + [s[k]] + s[k + 1..];
    assert s[k := x] == s[..k] + [x] + s[k + 1..];
    SommeReelleConcat(s[..k] + [s[k]], s[k + 1..], MontantLigne);
    SommeReelleConcat(s[..k], [s[k]], MontantLigne);
    SommeReelleConcat(s[..k] + [x], s[k + 1..], MontantLigne);
    SommeReelleConcat(s[..k], [x], MontantLigne);
    assert SommeReelle([s[k]], MontantLigne) == MontantLigne(s[k]) by {
      assert [s[k]][..0] == [];
    }
    assert SommeReelle([x], MontantLigne) == MontantLigne(x) by {
      assert [x][..0] == [];
    }
  }

  lemma SommeRetrait(articles: seq<ArticlePanier>, k: nat)
    requires k < |articles|
    ensures SommeLignes(articles[..k] + articles[k + 1..]) == SommeLignes(articles) - MontantLigne(articles[k])
  {
    var s := articles;
    assert s == s[..k] + [s[k]] + s[k + 1..];
    SommeReelleConcat(s[..k] + [s[k]], s[k + 1..], MontantLigne);
    SommeReelleConcat(s[..k], [s[k]], MontantLigne);
    SommeReelleConcat(s[..k], s[k + 1..], MontantLigne);
    assert SommeReelle([s[k]], MontantLigne) == MontantLigne(s[k]) by {
      assert [s[k]][..0] == [];
    }
  }

  /** With unique ids, the `map` of AJOUTER_ARTICLE touches exactly the line
      found, raising its quantity by one. */
  lemma IncrementerUnique(articles: seq<ArticlePanier>, id: string, k: nat)
    requires IdsUniques(articles)
    requires k < |articles| && articles[k].produit.id == id
    ensures Incrementer(articles, id) == articles[k := articles[k].(quantite := articles[k].quantite + 1)]
  {
  }

  lemma FixerQuantiteUnique(articles: seq<ArticlePanier>, id: string, k: nat, q: int)
    requires IdsUniques(articles)
    requires k < |articles| && articles[k].produit.id == id
    ensures FixerQuantite(articles, id, q) == articles[k := articles[k].(quantite := q)]
  {
  }

  /** Deleting one line keeps ids unique. */
  lemma RetraitIdsUniques(articles: seq<ArticlePanier>, k: nat)
    requires IdsUniques(articles) && k < |articles|
    ensures IdsUniques(articles[..k] + articles[k + 1..])
  {
    var r := articles[..k] + articles[k + 1..];
    forall i, j | 0 <= i < j < |r| ensures r[i].produit.id != r[j].produit.id {
      var i' := if i < k then i else i + 1;
      var j' := if j < k then j else j + 1;
      assert r[i] == articles[i'] && r[j] == articles[j'];
    }
  }

  /** With unique ids, the `filter` of SUPPRIMER_ARTICLE deletes exactly the
      line found and keeps the others in order. */
  lemma RetirerUnique(articles: seq<ArticlePanier>, id: string, k: nat)
    requires IdsUniques(articles)
    requires k < |articles| && articles[k].produit.id == id
    ensures Retirer(articles, id) == articles[..k] + articles[k + 1..]
  {
    var garde := (a: ArticlePanier) => a.produit.id != id;
    forall j | 0 <= j < |articles| && j != k ensures garde(articles[j]) {
      if j < k { assert articles[j].produit.id != articles[k].produit.id; }
      else { assert articles[k].produit.id != articles[j].produit.id; }
    }
    FiltrerUnSeul(articles, garde, k);
  }

  /** With unique ids, the line with a given id is at the index where it is found. */
  lemma IndexUnique(articles: seq<ArticlePanier>, k: nat)
    requires IdsUniques(articles) && k < |articles|
    ensures IndexArticle(articles, articles[k].produit.id) == Some(k)
  {
  }

  /** AJOUTER_ARTICLE on an id already in the cart: the line keeps its place,
      its quantity grows by one, no other line changes, and the sub-total
      grows by the payload's effective price. */
  lemma AjouterExistant(e: EtatPanier, p: Produit, k: nat)
    requires IdsUniques(e.articles)
    requires k < |e.articles| && e.articles[k].produit.id == p.id
    ensures Reducteur(e, AjouterArticle(p)).articles
            == e.articles[k := e.articles[k].(quantite := e.articles[k].quantite + 1)]
    ensures Reducteur(e, AjouterArticle(p)).sousTotal == e.sousTotal + PrixEffectif(p)
    ensures Reducteur(e, AjouterArticle(p)).reduction == e.reduction
  {
    IndexUnique(e.articles, k);
    IncrementerUnique(e.articles, p.id, k);
  }

  /** AJOUTER_ARTICLE on a new id appends one line of quantity 1, so ids stay unique. */
  lemma AjouterNouveau(e: EtatPanier, p: Produit)
    requires forall i :: 0 <= i < |e.articles| ==> e.articles[i].produit.id != p.id
    ensures Reducteur(e, AjouterArticle(p)).articles == e.articles + [ArticlePanier(p, 1)]
    ensures Reducteur(e, AjouterArticle(p)).sousTotal == e.sousTotal + PrixEffectif(p)
    ensures IdsUniques(e.articles) ==> IdsUniques(Reducteur(e, AjouterArticle(p)).articles)
  {
  }

  /** SUPPRIMER_ARTICLE and MODIFIER_QUANTITE on an absent id, whatever the
      quantity, return the state unchanged. */
  lemma IdAbsentInchange(e: EtatPanier, id: string, quantite: int)
    requires forall i :: 0 <= i < |e.articles| ==> e.articles[i].produit.id != id
    ensures Reducteur(e, SupprimerArticle(id)) == e
    ensures Reducteur(e, ModifierQuantite(id, quantite)) == e
  {
  }

  /** MODIFIER_QUANTITE with a non-positive quantity is SUPPRIMER_ARTICLE. */
  lemma ModifierNegatifSupprime(e: EtatPanier, id: string, quantite: int)
    requires quantite <= 0
    ensures Reducteur(e, ModifierQuantite(id, quantite)) == Reducteur(e, SupprimerArticle(id))
  {
  }

  /** SUPPRIMER_ARTICLE on a present id removes exactly that line and takes
      its amount off the sub-total. */
  lemma SupprimerPresent(e: EtatPanier, k: nat)
    requires IdsUniques(e.articles) && k < |e.articles|
    ensures Reducteur(e, SupprimerArticle(e.articles[k].produit.id)).articles
            == e.articles[..k] + e.articles[k + 1..]
    ensures Reducteur(e, SupprimerArticle(e.articles[k].produit.id)).sousTotal
            == e.sousTotal - MontantLigne(e.articles[k])
  {
    var id := e.articles[k].produit.id;
    IndexUnique(e.articles, k);
    RetirerUnique(e.articles, id, k);
    SuppressionTrouvee(e, id, k);
  }

  /** The MODIFIER_QUANTITE branch once `find` has returned line `k` and the
      quantity is positive. */
  lemma ModificationTrouvee(e: EtatPanier, id: string, k: nat, quantite: int)
    requires IndexArticle(e.articles, id) == Some(k) && quantite > 0
    ensures Reducteur(e, ModifierQuantite(id, quantite))
            == AvecLignes(e, FixerQuantite(e.articles, id, quantite),
                          e.sousTotal + Ecart(e.articles[k], quantite))
  {
  }

  /** The SUPPRIMER_ARTICLE branch once `find` has returned line `k`. */
  lemma SuppressionTrouvee(e: EtatPanier, id: string, k: nat)
    requires IndexArticle(e.articles, id) == Some(k)
    ensures Reducteur(e, SupprimerArticle(id))
            == AvecLignes(e, Retirer(e.articles, id), e.sousTotal - MontantLigne(e.articles[k]))
  {
  }

  /** MODIFIER_QUANTITE with a positive quantity on a present id changes only
      that line's quantity and shifts the sub-total by price times the change. */
  lemma ModifierPresent(e: EtatPanier, k: nat, quantite: int)
    requires IdsUniques(e.articles) && k < |e.articles| && quantite > 0
    ensures Reducteur(e, ModifierQuantite(e.articles[k].produit.id, quantite)).articles
            == e.articles[k := e.articles[k].(quantite := quantite)]
    ensures Reducteur(e, ModifierQuantite(e.articles[k].produit.id, quantite)).sousTotal
            == e.sousTotal + Ecart(e.articles[k], quantite)
  {
    IndexUnique(e.articles, k);
    FixerQuantiteUnique(e.articles, e.articles[k].produit.id, k, quantite);
  }

  /** Setting the same quantity twice is the same as setting it once. */
  lemma ModifierIdempotent(e: EtatPanier, id: string, quantite: int)
    ensures Reducteur(Reducteur(e, ModifierQuantite(id, quantite)), ModifierQuantite(id, quantite))
            == Reducteur(e, ModifierQuantite(id, quantite))
  {
    match IndexArticle(e.articles, id)
    case None =>
    case Some(k) =>
      if quantite <= 0 {
        RepeterSuppression(e, id, k, quantite);
      } else {
        RepeterModification(e, id, k, quantite);
      }
  }

  lemma RepeterSuppression(e: EtatPanier, id: string, k: nat, quantite: int)
    requires IndexArticle(e.articles, id) == Some(k) && quantite <= 0
    ensures Reducteur(Reducteur(e, ModifierQuantite(id, quantite)), ModifierQuantite(id, quantite))
            == Reducteur(e, ModifierQuantite(id, quantite))
  {
    ModifierNegatifSupprime(e, id, quantite);
    SuppressionTrouvee(e, id, k);
    RetirerSansId(e.articles, id);
  }

  lemma RepeterModification(e: EtatPanier, id: string, k: nat, quantite: int)
    requires IndexArticle(e.articles, id) == Some(k) && quantite > 0
    ensures Reducteur(Reducteur(e, ModifierQuantite(id, quantite)), ModifierQuantite(id, quantite))
            == Reducteur(e, ModifierQuantite(id, quantite))
  {
    var e1 := Reducteur(e, ModifierQuantite(id, quantite));
    ModificationTrouvee(e, id, k, quantite);
    var a1 := FixerQuantite(e.articles, id, quantite);
    assert e1.articles == a1 && a1[k].produit.id == id;
    var k1 := IndexArticle(a1, id).value;
    assert a1[k1].quantite == quantite;
    ModificationTrouvee(e1, id, k1, quantite);
    FixerQuantiteIdempotent(e.articles, id, quantite);
    EcartNul(a1[k1]);
    AvecLignesIdempotent(e, a1, e1.sousTotal);
  }

  /** Setting a line to its own quantity moves nothing. */
  lemma EcartNul(a: ArticlePanier)
    ensures Ecart(a, a.quantite) == 0.0
  {
  }

  /** Rebuilding a state from its own lines and sub-total changes nothing. */
  lemma AvecLignesIdempotent(e: EtatPanier, articles: seq<ArticlePanier>, sousTotal: real)
    ensures AvecLignes(AvecLignes(e, articles, sousTotal), articles, sousTotal) == AvecLignes(e, articles, sousTotal)
  {
  }

  /** After the `filter` of SUPPRIMER_ARTICLE no line has the id. */
  lemma RetirerSansId(articles: seq<ArticlePanier>, id: string)
    ensures IndexArticle(Retirer(articles, id), id).None?
  {
    var r := Retirer(articles, id);
    forall i | 0 <= i < |r| ensures r[i].produit.id != id {
      var garde := (a: ArticlePanier) => a.produit.id != id;
      assert garde(r[i]);
    }
  }

  /** Setting the same quantity on the same id twice is setting it once. */
  lemma FixerQuantiteIdempotent(articles: seq<ArticlePanier>, id: string, quantite: int)
    ensures FixerQuantite(FixerQuantite(articles, id, quantite), id, quantite) == FixerQuantite(articles, id, quantite)
  {
  }

  /** APPLIQUER_REDUCTION changes only the discount and the total. */
  lemma ReductionSeule(e: EtatPanier, reduction: real)
    ensures Reducteur(e, AppliquerReduction(reduction))
            == e.(reduction := reduction, total := CalculerTotal(e.sousTotal, reduction, e.fraisLivraison))
  {
  }

  /** VIDER_PANIER returns exactly the initial state; an unknown action
      returns the state unchanged. */
  lemma ViderEtInconnue(e: EtatPanier, nom: string)
    ensures Reducteur(e, ViderPanier) == EtatInitial
    ensures Reducteur(e, ActionInconnue(nom)) == e
  {
  }

  /** Replacing a line by one with the same id keeps ids unique. */
  lemma MiseAJourIdsUniques(articles: seq<ArticlePanier>, k: nat, x: ArticlePanier)
    requires IdsUniques(articles) && k < |articles| && x.produit.id == articles[k].produit.id
    ensures IdsUniques(articles[k := x])
  {
    var r := articles[k := x];
    forall i, j | 0 <= i < j < |r| ensures r[i].produit.id != r[j].produit.id {
      assert r[i].produit.id == articles[i].produit.id && r[j].produit.id == articles[j].produit.id;
    }
  }

  /** Price times a changed quantity. */
  lemma ProduitDifference(prix: real, q: int, q': int)
    ensures prix * q' as real == prix * q as real + prix * (q' - q) as real
  {
  }

  lemma CoherenceAjoutExistant(e: EtatPanier, p: Produit, k: nat)
    requires Coherent(e) && PrixCompatibles(e.articles, p)
    requires k < |e.articles| && e.articles[k].produit.id == p.id
    ensures Coherent(Reducteur(e, AjouterArticle(p)))
  {
    AjouterExistant(e, p, k);
    var a := e.articles[k];
    var x := a.(quantite := a.quantite + 1);
    assert PrixEffectif(a.produit) == PrixEffectif(p);
    MontantIncremente(a);
    CoherenceRemplacement(e, Reducteur(e, AjouterArticle(p)), k, x, PrixEffectif(p));
  }

  /** Setting a line's quantity shifts its amount by the unit price times the change. */
  lemma MontantFixe(a: ArticlePanier, q: int)
    ensures MontantLigne(a.(quantite := q)) == MontantLigne(a) + Ecart(a, q)
  {
    ProduitDifference(PrixEffectif(a.produit), a.quantite, q);
  }

  /** One more unit adds the unit price to a line's amount. */
  lemma MontantIncremente(a: ArticlePanier)
    ensures MontantLigne(a.(quantite := a.quantite + 1)) == MontantLigne(a) + PrixEffectif(a.produit)
  {
    ProduitDifference(PrixEffectif(a.produit), a.quantite, a.quantite + 1);
  }

  /** A state whose lines are a coherent state's with line `k` replaced by
      one of the same id, and whose sub-total moved by the difference of the
      two lines' amounts, is coherent. */
  lemma CoherenceRemplacement(e: EtatPanier, r: EtatPanier, k: nat, x: ArticlePanier, delta: real)
    requires Coherent(e) && k < |e.articles| && x.produit.id == e.articles[k].produit.id
    requires r.articles == e.articles[k := x] && TotalCoherent(r)
    requires MontantLigne(x) == MontantLigne(e.articles[k]) + delta
    requires r.sousTotal == e.sousTotal + delta
    ensures Coherent(r)
  {
    MiseAJourIdsUniques(e.articles, k, x);
    SommeMiseAJour(e.articles, k, x);
  }

  lemma CoherenceAjoutNouveau(e: EtatPanier, p: Produit)
    requires Coherent(e)
    requires forall i :: 0 <= i < |e.articles| ==> e.articles[i].produit.id != p.id
    ensures Coherent(Reducteur(e, AjouterArticle(p)))
  {
    AjouterNouveau(e, p);
    var n := e.articles + [ArticlePanier(p, 1)];
    assert n[..|n| - 1] == e.articles;
    assert SommeLignes(n) == SommeLignes(e.articles) + MontantLigne(ArticlePanier(p, 1));
  }

  lemma CoherenceAjout(e: EtatPanier, p: Produit)
    requires Coherent(e) && PrixCompatibles(e.articles, p)
    ensures Coherent(Reducteur(e, AjouterArticle(p)))
  {
    match IndexArticle(e.articles, p.id) {
      case Some(k) => CoherenceAjoutExistant(e, p, k);
      case None => CoherenceAjoutNouveau(e, p);
    }
  }

  lemma CoherenceSuppression(e: EtatPanier, id: string)
    requires Coherent(e)
    ensures Coherent(Reducteur(e, SupprimerArticle(id)))
  {
    match IndexArticle(e.articles, id) {
      case None =>
      case Some(k) =>
        SupprimerPresent(e, k);
        RetraitIdsUniques(e.articles, k);
        SommeRetrait(e.articles, k);
    }
  }

  lemma CoherenceModificationPositive(e: EtatPanier, k: nat, quantite: int)
    requires Coherent(e) && k < |e.articles| && quantite > 0
    ensures Coherent(Reducteur(e, ModifierQuantite(e.articles[k].produit.id, quantite)))
  {
    var id := e.articles[k].produit.id;
    var a := e.articles[k];
    var x := a.(quantite := quantite);
    var delta := Ecart(a, quantite);
    IndexUnique(e.articles, k);
    FixerQuantiteUnique(e.articles, id, k, quantite);
    ModificationTrouvee(e, id, k, quantite);
    MontantFixe(a, quantite);
    CoherenceRemplacement(e, Reducteur(e, ModifierQuantite(id, quantite)), k, x, delta);
  }

  lemma CoherenceModification(e: EtatPanier, id: string, quantite: int)
    requires Coherent(e)
    ensures Coherent(Reducteur(e, ModifierQuantite(id, quantite)))
  {
    match IndexArticle(e.articles, id) {
      case None =>
      case Some(k) =>
        if quantite <= 0 {
          CoherenceSuppression(e, id);
        } else {
          CoherenceModificationPositive(e, k, quantite);
        }
    }
  }

  /** Each action keeps the cart coherent (unique ids, sub-total equal to the
      sum of the lines, total derived), provided the caller supplies
      consistent prices and, on restore, no duplicate ids. */
  lemma {:induction false} CoherencePreservee(e: EtatPanier, action: ActionPanier)
    requires Coherent(e) && ActionCompatible(e, action)
    ensures Coherent(Reducteur(e, action))
  {
    match action
    case AjouterArticle(p) => CoherenceAjout(e, p);
    case SupprimerArticle(id) => CoherenceSuppression(e, id);
    case ModifierQuantite(id, quantite) => CoherenceModification(e, id, quantite);
    case AppliquerReduction(_) =>
    case MettreAJourLivraison(_) =>
    case ViderPanier =>
    case InitialiserPanier(_) =>
    case ActionInconnue(_) =>
  }

  // ---------------------------------------------------------------------
  // Round trips

  /** From the empty cart, adding a product and removing it leaves no lines
      and a zero sub-total, but not the initial state: the fee and the total
      are both the standard fee. */
  lemma AjouterPuisSupprimer(p: Produit)
    ensures var r := Reducteur(Reducteur(EtatInitial, AjouterArticle(p)), SupprimerArticle(p.id));
            r.articles == [] && r.sousTotal == 0.0
            && r.fraisLivraison == FraisLivraisonStandard && r.total == FraisLivraisonStandard
            && r != EtatInitial
  {
    var e1 := Reducteur(EtatInitial, AjouterArticle(p));
    assert e1.articles == [ArticlePanier(p, 1)];
    assert IndexArticle(e1.articles, p.id) == Some(0);
    assert Retirer(e1.articles, p.id) == [];
  }

  /** INITIALISER_PANIER recomputes everything from the given lines,
      whatever the state and whatever the lines, and resets the discount. */
  lemma InitialisationRecalcule(e: EtatPanier, lignes: seq<ArticlePanier>)
    ensures var r := Reducteur(e, InitialiserPanier(lignes));
            r.articles == lignes && r.sousTotal == SommeLignes(lignes) && r.reduction == 0.0
            && r.fraisLivraison == CalculerFraisLivraison(r.sousTotal) && TotalCoherent(r)
  {
  }

  /** INITIALISER_PANIER does not check ids: two lines of one product are
      installed as they are, so the result can break `IdsUniques`. */
  lemma InitialisationAccepteDoublons(e: EtatPanier, a: ArticlePanier)
    ensures !IdsUniques(Reducteur(e, InitialiserPanier([a, a])).articles)
  {
    var r := Reducteur(e, InitialiserPanier([a, a]));
    assert r.articles[0].produit.id == r.articles[1].produit.id;
  }

  /** Restoring the lines of a coherent cart whose fee follows the rule gives
      back its sub-total and fee, and its total when no discount was applied;
      the discount itself is reset to 0. */
  lemma InstantaneAllerRetour(e: EtatPanier, avant: EtatPanier)
    requires Coherent(e) && e.fraisLivraison == CalculerFraisLivraison(e.sousTotal)
    ensures var r := Reducteur(avant, InitialiserPanier(e.articles));
            r.articles == e.articles && r.sousTotal == e.sousTotal
            && r.fraisLivraison == e.fraisLivraison && r.reduction == 0.0
            && (e.reduction == 0.0 ==> r.total == e.total)
  {
  }
}
