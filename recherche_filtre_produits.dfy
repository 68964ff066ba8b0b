/** The catalogue search of src/components/RechercheFiltreProduits.tsx: the
    category list and default price bounds derived from the products, the
    filter steps applied one after the other, and the in-place sort. */
module RechercheFiltreProduits {
  import opened Wrappers
  import opened Listes
  import opened Texte
  import opened Types

  /** A price bound: `Math.min()` of no prices is `Infinity` and `Math.max()`
      of none is `-Infinity`. */
  datatype Borne = Fini(v: real) | PlusInfini | MoinsInfini

  predicate AuMoins(prix: real, b: Borne)
  {
    match b
    case Fini(v) => prix >= v
    case PlusInfini => false
    case MoinsInfini => true
  }

  predicate AuPlus(prix: real, b: Borne)
  {
    match b
    case Fini(v) => prix <= v
    case PlusInfini => true
    case MoinsInfini => false
  }

  datatype Ordre = PrixCroissant | PrixDecroissant | Alphabetique | Nouveautes | Populaires

  datatype Filtres = Filtres(
    recherche: string,
    categorie: string,
    prixMin: Borne,
    prixMax: Borne,
    ordre: Ordre,
    promotion: bool,
    disponible: bool)

  /** `produits.map(p => p.categorie)`. */
  function CategoriesBrutes(produits: seq<Produit>): (r: seq<string>)
    ensures |r| == |produits|
    ensures forall i :: 0 <= i < |produits| ==> r[i] == produits[i].categorie
  {
    seq(|produits|, i requires 0 <= i < |produits| => produits[i].categorie)
  }

  /** `['toutes', ...new Set(produits.map(p => p.categorie))]`. */
  function Categories(produits: seq<Produit>): (r: seq<string>)
    ensures |r| >= 1 && r[0] == "toutes"
    ensures SansDoublon(r[1..])
    ensures forall i :: 0 <= i < |produits| ==> produits[i].categorie in r[1..]
    ensures forall k :: 1 <= k < |r| ==> exists i :: 0 <= i < |produits| && produits[i].categorie == r[k]
    ensures r[1..] == Distincts(CategoriesBrutes(produits))
  {
    var cats := CategoriesBrutes(produits);
    var d := Distincts(cats);
    var r := ["toutes"] + d;
    assert r[1..] == d;
    forall i | 0 <= i < |produits|
      ensures produits[i].categorie in r[1..]
    {
      assert cats[i] in d;
    }
    forall k | 1 <= k < |r|
      ensures exists i :: 0 <= i < |produits| && produits[i].categorie == r[k]
    {
      assert r[k] == d[k - 1];
      assert r[k] in cats;
    }
    r
  }

  /** Smallest of the prices given by `prix`. */
  function Minimum(s: seq<Produit>, prix: Produit -> real): (m: real)
    requires s != []
    ensures forall i :: 0 <= i < |s| ==> m <= prix(s[i])
    ensures exists i :: 0 <= i < |s| && m == prix(s[i])
  {
    if |s| == 1 then prix(s[0])
    else
      var m := Minimum(s[1..], prix);
      assert forall i :: 1 <= i < |s| ==> s[i] == s[1..][i - 1];
      if prix(s[0]) <= m then prix(s[0]) else m
  }

  /** Largest of the prices given by `prix`. */
  function Maximum(s: seq<Produit>, prix: Produit -> real): (m: real)
    requires s != []
    ensures forall i :: 0 <= i < |s| ==> m >= prix(s[i])
    ensures exists i :: 0 <= i < |s| && m == prix(s[i])
  {
    if |s| == 1 then prix(s[0])
    else
      var m := Maximum(s[1..], prix);
      assert forall i :: 1 <= i < |s| ==> s[i] == s[1..][i - 1];
      if prix(s[0]) >= m then prix(s[0]) else m
  }

  function Plafond(x: real): int
  {
    -((-x).Floor)
  }

  /** `Math.floor(Math.min(...produits.map(prix)))`: the largest integer not
      above any price, `Infinity` for no product. */
  function BorneBasse(produits: seq<Produit>, prix: Produit -> real): (b: Borne)
    ensures produits == [] <==> b == PlusInfini
    ensures b.Fini? ==> b.v == b.v.Floor as real
    ensures b.Fini? ==> forall i :: 0 <= i < |produits| ==> b.v <= prix(produits[i])
    ensures b.Fini? ==> exists i :: 0 <= i < |produits| && prix(produits[i]) < b.v + 1.0
  {
    if produits == [] then PlusInfini else Fini(Minimum(produits, prix).Floor as real)
  }

  /** `Math.ceil(Math.max(...produits.map(prix)))`: the smallest integer not
      below any price, `-Infinity` for no product. */
  function BorneHaute(produits: seq<Produit>, prix: Produit -> real): (b: Borne)
    ensures produits == [] <==> b == MoinsInfini
    ensures b.Fini? ==> b.v == b.v.Floor as real
    ensures b.Fini? ==> forall i :: 0 <= i < |produits| ==> b.v >= prix(produits[i])
    ensures b.Fini? ==> exists i :: 0 <= i < |produits| && prix(produits[i]) > b.v - 1.0
  {
    if produits == [] then MoinsInfini else Fini(Plafond(Maximum(produits, prix)) as real)
  }

  function PrixDeBase(p: Produit): real
  {
    p.prix
  }

  /** The default bounds as the component computes them, over base prices. */
  function PrixMinimum(produits: seq<Produit>): Borne
  {
    BorneBasse(produits, PrixDeBase)
  }

  function PrixMaximum(produits: seq<Produit>): Borne
  {
    BorneHaute(produits, PrixDeBase)
  }

  /** Bounds over the price the filter actually compares. */
  function PrixMinimumEffectif(produits: seq<Produit>): Borne
  {
    BorneBasse(produits, PrixEffectif)
  }

  function PrixMaximumEffectif(produits: seq<Produit>): Borne
  {
    BorneHaute(produits, PrixEffectif)
  }

  /** The initial and reset filter state for the given default bounds. */
  function Defaut(prixMinimum: Borne, prixMaximum: Borne): Filtres
  {
    Filtres("", "toutes", prixMinimum, prixMaximum, Alphabetique, false, true)
  }

  /** `filtrageActif`: some field differs from its default, that is the
      filters are not the defaults. */
  predicate FiltrageActif(f: Filtres, prixMinimum: Borne, prixMaximum: Borne): (actif: bool)
    ensures actif <==> f != Defaut(prixMinimum, prixMaximum)
  {
    f.recherche != "" || f.categorie != "toutes" || f.prixMin != prixMinimum
    || f.prixMax != prixMaximum || f.ordre != Alphabetique || f.promotion || !f.disponible
  }

  /** `reinitialiserFiltres`: back to the defaults, so no filtering is active. */
  function Reinitialiser(prixMinimum: Borne, prixMaximum: Borne): (f: Filtres)
    ensures !FiltrageActif(f, prixMinimum, prixMaximum)
  {
    Defaut(prixMinimum, prixMaximum)
  }

  // ---------------------------------------------------------------------
  // Filter steps

  /** `term` occurs in the lower-cased name, description, some ingredient or category. */
  predicate TermeTrouve(term: string, p: Produit)
  {
    Contient(EnMinuscules(p.nom), term) || Contient(EnMinuscules(p.description), term)
    || (exists j :: 0 <= j < |p.ingredients| && Contient(EnMinuscules(p.ingredients[j]), term))
    || Contient(EnMinuscules(p.categorie), term)
  }

  /** The search terms: lower-cased, split on spaces, empty pieces dropped. */
  function Termes(recherche: string): seq<string>
  {
    Mots(EnMinuscules(recherche))
  }

  /** The search step: a blank search keeps everything; otherwise some term
      must be found. */
  predicate PasseRecherche(f: Filtres, p: Produit)
  {
    EstBlanc(f.recherche) || exists k :: 0 <= k < |Termes(f.recherche)| && TermeTrouve(Termes(f.recherche)[k], p)
  }

  predicate PasseCategorie(f: Filtres, p: Produit)
  {
    f.categorie == "toutes" || p.categorie == f.categorie
  }

  /** The price step, always applied, inclusive on the effective price. */
  predicate PassePrix(f: Filtres, p: Produit)
  {
    AuMoins(PrixEffectif(p), f.prixMin) && AuPlus(PrixEffectif(p), f.prixMax)
  }

  predicate PassePromotion(f: Filtres, p: Produit)
  {
    !f.promotion || p.enPromotion
  }

  predicate PasseDisponible(f: Filtres, p: Produit)
  {
    !f.disponible || p.disponible
  }

  /** A product survives the whole chain of filter steps. */
  predicate Retenu(f: Filtres, p: Produit)
  {
    PasseRecherche(f, p) && PasseCategorie(f, p) && PassePrix(f, p) && PassePromotion(f, p) && PasseDisponible(f, p)
  }

  /** A search that is not blank always yields at least one term, so it is
      the terms, never an empty term list, that decide. */
  lemma TermesNonVides(recherche: string)
    requires !EstBlanc(recherche)
    ensures Termes(recherche) != []
  {
    var i :| 0 <= i < |recherche| && !EstEspaceBlanc(recherche[i]);
    MotsNonVides(EnMinuscules(recherche), i);
  }

  // ---------------------------------------------------------------------
  // Sort

  /** The sort key each order compares; `rangNom` stands for the
      `localeCompare` order of names. */
  function Cle(ordre: Ordre, rangNom: string -> real): Produit -> real
  {
    match ordre
    case PrixCroissant => (p: Produit) => PrixEffectif(p)
    case PrixDecroissant => (p: Produit) => -PrixEffectif(p)
    case Alphabetique => (p: Produit) => rangNom(p.nom)
    case Nouveautes => (p: Produit) => -(p.dateDeMiseAJour as real)
    case Populaires => (p: Produit) => if p.enVedette then 0.0 else 1.0
  }

  predicate Trie(s: seq<Produit>, cle: Produit -> real)
  {
    forall i, j :: 0 <= i < j < |s| ==> cle(s[i]) <= cle(s[j])
  }

  /** Moves `a[i]` down past the larger keys before it, so that `a[..i+1]`
      is sorted when `a[..i]` was. */
  method Inserer(a: array<Produit>, i: int, cle: Produit -> real)
    requires 0 <= i < a.Length
    requires forall k, l :: 0 <= k < l < i ==> cle(a[k]) <= cle(a[l])
    modifies a
    ensures forall k, l :: 0 <= k < l <= i ==> cle(a[k]) <= cle(a[l])
    ensures multiset(a[..]) == multiset(old(a[..]))
  {
    var j := i;
    while j > 0 && cle(a[j - 1]) > cle(a[j])
      invariant 0 <= j <= i
      invariant forall k, l :: 0 <= k < l <= i && k != j && l != j ==> cle(a[k]) <= cle(a[l])
      invariant forall l :: j < l <= i ==> cle(a[j]) <= cle(a[l])
      invariant multiset(a[..]) == multiset(old(a[..]))
    {
      Echanger(a, j);
      j := j - 1;
    }
  }

  /** Swaps `a[j - 1]` and `a[j]`. */
  method Echanger(a: array<Produit>, j: int)
    requires 0 < j < a.Length
    modifies a
    ensures a[..] == old(a[..])[j - 1 := old(a[j])][j := old(a[j - 1])]
    ensures multiset(a[..]) == multiset(old(a[..]))
  {
    a[j - 1], a[j] := a[j], a[j - 1];
  }

  /** `resultat.sort(comparateur)` as an insertion sort on the array. */
  method TrierEnPlace(a: array<Produit>, cle: Produit -> real)
    modifies a
    ensures Trie(a[..], cle)
    ensures multiset(a[..]) == multiset(old(a[..]))
  {
    var i := 0;
    while i < a.Length
      invariant 0 <= i <= a.Length
      invariant forall k, l :: 0 <= k < l < i ==> cle(a[k]) <= cle(a[l])
      invariant multiset(a[..]) == multiset(old(a[..]))
    {
      Inserer(a, i, cle);
      i := i + 1;
    }
  }

  /** The filtered list copied into an array, sorted there, and read back. */
  method TrierCopie(s: seq<Produit>, cle: Produit -> real) returns (r: seq<Produit>)
    ensures Trie(r, cle)
    ensures multiset(r) == multiset(s)
  {
    var tableau := new Produit[|s|](i requires 0 <= i < |s| => s[i]);
    assert tableau[..] == s;
    TrierEnPlace(tableau, cle);
    r := tableau[..];
  }

  /** The filter steps of the effect, each applied to the previous result
      when its field asks for it: together they keep, in their original
      order, exactly the products that pass every step. */
  method Selectionner(produits: seq<Produit>, f: Filtres) returns (resultat: seq<Produit>)
    ensures resultat == Filtrer(produits, p => Retenu(f, p))
  {
    resultat := produits;
    ghost var garde: Produit -> bool := p => true;
    FiltrerIdentite(produits, garde);

    ghost var suivante: Produit -> bool := p => garde(p) && PasseRecherche(f, p);
    if !EstBlanc(f.recherche) {
      var termes := Termes(f.recherche);
      var etape := (p: Produit) => exists k :: 0 <= k < |termes| && TermeTrouve(termes[k], p);
      FiltrerSuccessifs(produits, garde, etape, suivante);
      resultat := Filtrer(resultat, etape);
    } else {
      FiltrerExtensionnel(produits, garde, suivante);
    }
    garde := suivante;

    suivante := p => garde(p) && PasseCategorie(f, p);
    if f.categorie != "toutes" {
      var etape := (p: Produit) => p.categorie == f.categorie;
      FiltrerSuccessifs(produits, garde, etape, suivante);
      resultat := Filtrer(resultat, etape);
    } else {
      FiltrerExtensionnel(produits, garde, suivante);
    }
    garde := suivante;

    suivante := p => garde(p) && PassePrix(f, p);
    var etapePrix := (p: Produit) => PassePrix(f, p);
    FiltrerSuccessifs(produits, garde, etapePrix, suivante);
    resultat := Filtrer(resultat, etapePrix);
    garde := suivante;

    suivante := p => garde(p) && PassePromotion(f, p);
    if f.promotion {
      var etape := (p: Produit) => p.enPromotion;
      FiltrerSuccessifs(produits, garde, etape, suivante);
      resultat := Filtrer(resultat, etape);
    } else {
      FiltrerExtensionnel(produits, garde, suivante);
    }
    garde := suivante;

    suivante := p => garde(p) && PasseDisponible(f, p);
    if f.disponible {
      var etape := (p: Produit) => p.disponible;
      FiltrerSuccessifs(produits, garde, etape, suivante);
      resultat := Filtrer(resultat, etape);
    } else {
      FiltrerExtensionnel(produits, garde, suivante);
    }
    garde := suivante;

    FiltrerExtensionnel(produits, garde, p => Retenu(f, p));
  }

  /** The effect: `filtrageActif`, then the filter steps, then the sort of
      the order chosen. The result holds exactly the products that pass
      every step, each as often as in the input, sorted on the order's key. */
  method FiltrerEtTrier(produits: seq<Produit>, f: Filtres, prixMinimum: Borne, prixMaximum: Borne,
                        rangNom: string -> real)
    returns (resultat: seq<Produit>, actif: bool)
    ensures actif == FiltrageActif(f, prixMinimum, prixMaximum)
    ensures multiset(resultat) == multiset(Filtrer(produits, p => Retenu(f, p)))
    ensures Trie(resultat, Cle(f.ordre, rangNom))
  {
    actif := f.recherche != "" || f.categorie != "toutes" || f.prixMin != prixMinimum
             || f.prixMax != prixMaximum || f.ordre != Alphabetique || f.promotion || !f.disponible;
    resultat := Selectionner(produits, f);
    resultat := TrierCopie(resultat, Cle(f.ordre, rangNom));
  }

  // ---------------------------------------------------------------------
  // What each order means

  lemma OrdrePrixCroissant(s: seq<Produit>, rangNom: string -> real, i: nat, j: nat)
    requires Trie(s, Cle(PrixCroissant, rangNom)) && i < j < |s|
    ensures PrixEffectif(s[i]) <= PrixEffectif(s[j])
  {
    assert Cle(PrixCroissant, rangNom)(s[i]) <= Cle(PrixCroissant, rangNom)(s[j]);
  }

  lemma OrdrePrixDecroissant(s: seq<Produit>, rangNom: string -> real, i: nat, j: nat)
    requires Trie(s, Cle(PrixDecroissant, rangNom)) && i < j < |s|
    ensures PrixEffectif(s[i]) >= PrixEffectif(s[j])
  {
    assert Cle(PrixDecroissant, rangNom)(s[i]) <= Cle(PrixDecroissant, rangNom)(s[j]);
  }

  /** The `populaires` order puts every featured product before every other. */
  lemma OrdrePopulaires(s: seq<Produit>, rangNom: string -> real, i: nat, j: nat)
    requires Trie(s, Cle(Populaires, rangNom)) && i < j < |s|
    ensures s[j].enVedette ==> s[i].enVedette
  {
    assert Cle(Populaires, rangNom)(s[i]) <= Cle(Populaires, rangNom)(s[j]);
  }

  /** The `nouveautes` order puts the most recently updated products first. */
  lemma OrdreNouveautes(s: seq<Produit>, rangNom: string -> real, i: nat, j: nat)
    requires Trie(s, Cle(Nouveautes, rangNom)) && i < j < |s|
    ensures s[i].dateDeMiseAJour >= s[j].dateDeMiseAJour
  {
    assert Cle(Nouveautes, rangNom)(s[i]) <= Cle(Nouveautes, rangNom)(s[j]);
  }

  // ---------------------------------------------------------------------
  // Default bounds

  /** With bounds over the effective price the filter compares, the default filters
      keep every available product. */
  lemma DefautsGardentLesDisponibles(produits: seq<Produit>, i: nat)
    requires i < |produits| && produits[i].disponible
    ensures Retenu(Defaut(PrixMinimumEffectif(produits), PrixMaximumEffectif(produits)), produits[i])
  {
    var f := Defaut(PrixMinimumEffectif(produits), PrixMaximumEffectif(produits));
    assert EstBlanc(f.recherche);
    assert PrixEffectif(produits[i]) == PrixEffectif(produits[i]);
  }

  /** With the bounds the component computes over base prices, the default
      filters hide an available product whose promotional price lies below
      every base price. */
  lemma PromotionMasquee()
    ensures var p := Produit("1", "Croissant", "", [], 5.0, "", [], "viennoiserie",
                             true, Some(3.0), false, true, 0);
            !Retenu(Defaut(PrixMinimum([p]), PrixMaximum([p])), p)
  {
    var p := Produit("1", "Croissant", "", [], 5.0, "", [], "viennoiserie",
                     true, Some(3.0), false, true, 0);
    assert Minimum([p], PrixDeBase) == 5.0;
    assert PrixMinimum([p]) == Fini(5.0);
    assert PrixEffectif(p) == 3.0;
  }
}
