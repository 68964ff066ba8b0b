/** The product form of src/components/FormulaireProduit.tsx: the draft
    record, its ingredient and image list edits, the promotion toggle, and
    the checks and image clean-up of the submission. */
module FormulaireProduit {
  import opened Wrappers
  import opened Listes
  import opened Texte
  import opened Types

  /** The form state: a product without id. The promotional price is always
      a number here (`|| 0`). */
  datatype Brouillon = Brouillon(
    nom: string,
    image: string,
    images: seq<string>,
    prix: real,
    description: string,
    ingredients: seq<string>,
    categorie: string,
    enPromotion: bool,
    prixPromotion: real,
    enVedette: bool,
    disponible: bool,
    dateDeMiseAJour: int)

  /** The initial state as written, from the product being edited if any:
      each field falls back to its default when falsy, and `disponible ||
      true` is always true. */
  function Initial(initial: Option<Produit>, maintenant: int): (b: Brouillon)
    ensures b.disponible
    ensures initial.None? ==> b.ingredients == [""] && b.categorie == "Non classé"
                              && b.nom == "" && b.image == "" && b.images == [] && b.prix == 0.0
    ensures initial.Some? ==> b.nom == initial.value.nom && b.images == initial.value.images
                              && b.ingredients == initial.value.ingredients
    ensures initial.Some? ==> b.categorie == if initial.value.categorie == "" then "Non classé" else initial.value.categorie
    ensures initial.None? ==> b.description == "" && !b.enPromotion && b.prixPromotion == 0.0 && !b.enVedette
                              && b.dateDeMiseAJour == maintenant
    ensures initial.Some? ==> b.image == initial.value.image && b.prix == initial.value.prix
                              && b.description == initial.value.description
                              && b.enPromotion == initial.value.enPromotion && b.enVedette == initial.value.enVedette
                              && b.dateDeMiseAJour == initial.value.dateDeMiseAJour
    ensures initial.Some? ==> b.prixPromotion == match initial.value.prixPromotion case Some(x) => x case None => 0.0
  {
    match initial
    case None =>
      Brouillon("", "", [], 0.0, "", [""], "Non classé", false, 0.0, false, true, maintenant)
    case Some(p) =>
      Brouillon(p.nom, p.image, p.images, p.prix, p.description, p.ingredients,
                if p.categorie == "" then "Non classé" else p.categorie,
                p.enPromotion,
                if p.prixPromotion.Some? then p.prixPromotion.value else 0.0,
                p.enVedette, true, p.dateDeMiseAJour)
  }

  /** Editing a product that is not available opens a form that shows it
      available, and submitting that form unchanged publishes it as
      available again. */
  lemma DisponibiliteForcee(p: Produit, maintenant: int, envoi: int)
    requires !p.disponible
    ensures Initial(Some(p), maintenant).disponible != p.disponible
    ensures Soumettre(Initial(Some(p), maintenant), envoi).Ok? ==>
              Soumettre(Initial(Some(p), maintenant), envoi).value.disponible
  {
  }

  /** The initial state with the product's own availability kept (`??`
      instead of `||`), a new product starting available. This is the form
      state the rest of the model starts from. */
  function InitialCorrige(initial: Option<Produit>, maintenant: int): (b: Brouillon)
    ensures initial.Some? ==> b.disponible == initial.value.disponible
    ensures initial.None? ==> b.disponible
    ensures b.(disponible := true) == Initial(initial, maintenant)
  {
    Initial(initial, maintenant).(disponible := if initial.Some? then initial.value.disponible else true)
  }

  /** Submitting the untouched edit form keeps the product's availability. */
  lemma EditionGardeDisponibilite(p: Produit, maintenant: int, envoi: int)
    requires Soumettre(InitialCorrige(Some(p), maintenant), envoi).Ok?
    ensures Soumettre(InitialCorrige(Some(p), maintenant), envoi).value.disponible == p.disponible
  {
  }

  // ---------------------------------------------------------------------
  // List edits by index

  /** `s.filter((_, i) => i !== index)`: drops the entry at `index`, if any,
      and keeps the others in order. */
  function SansIndice<T>(s: seq<T>, index: int): (r: seq<T>)
    ensures |r| == if 0 <= index < |s| then |s| - 1 else |s|
    ensures forall i :: 0 <= i < |r| && i < index ==> r[i] == s[i]
    ensures 0 <= index ==> forall i :: index <= i < |r| ==> r[i] == s[i + 1]
    ensures index < 0 ==> r == s
  {
    if 0 <= index < |s| then s[..index] + s[index + 1..] else s
  }

  /** `s.map((x, i) => i === index ? v : x)`: replaces only the entry at `index`. */
  function AIndice<T>(s: seq<T>, index: int, v: T): (r: seq<T>)
    ensures |r| == |s|
    ensures forall i :: 0 <= i < |s| ==> r[i] == if i == index then v else s[i]
  {
    seq(|s|, i requires 0 <= i < |s| => if i == index then v else s[i])
  }

  function AjouterIngredient(b: Brouillon): (r: Brouillon)
    ensures r.ingredients == b.ingredients + [""]
    ensures r == b.(ingredients := r.ingredients)
  {
    b.(ingredients := b.ingredients + [""])
  }

  function SupprimerIngredient(b: Brouillon, index: int): (r: Brouillon)
    ensures r == b.(ingredients := r.ingredients)
    ensures 0 <= index < |b.ingredients| ==> r.ingredients == b.ingredients[..index] + b.ingredients[index + 1..]
    ensures !(0 <= index < |b.ingredients|) ==> r.ingredients == b.ingredients
  {
    b.(ingredients := SansIndice(b.ingredients, index))
  }

  function ModifierIngredient(b: Brouillon, index: int, valeur: string): (r: Brouillon)
    ensures r == b.(ingredients := r.ingredients)
    ensures 0 <= index < |b.ingredients| ==> r.ingredients == b.ingredients[index := valeur]
    ensures !(0 <= index < |b.ingredients|) ==> r.ingredients == b.ingredients
  {
    b.(ingredients := AIndice(b.ingredients, index, valeur))
  }

  /** `ajouterImage`: a new empty slot, preceded by the main image when it is
      set and not listed yet. */
  function AjouterImage(b: Brouillon): (r: Brouillon)
    ensures r == b.(images := r.images)
    ensures b.image != "" && b.image !in b.images ==> r.images == b.images + [b.image, ""]
    ensures !(b.image != "" && b.image !in b.images) ==> r.images == b.images + [""]
  {
    if b.image != "" && b.image !in b.images then b.(images := b.images + [b.image, ""])
    else b.(images := b.images + [""])
  }

  /** After `ajouterImage` a non-empty main image is listed. */
  lemma AjouterImageListeLaPrincipale(b: Brouillon)
    requires b.image != ""
    ensures b.image in AjouterImage(b).images
    ensures |AjouterImage(b).images| == |b.images| + (if b.image in b.images then 1 else 2)
  {
    if b.image !in b.images {
      assert AjouterImage(b).images[|b.images|] == b.image;
    }
  }

  /** `supprimerImage`: drops the slot; when it held the main image and
      slots remain, the first remaining slot becomes the main image. */
  function SupprimerImage(b: Brouillon, index: int): (r: Brouillon)
    ensures r == b.(images := r.images, image := r.image)
    ensures r.images == SansIndice(b.images, index)
    ensures r.image != b.image ==>
              0 <= index < |b.images| && b.images[index] == b.image && |r.images| > 0 && r.image == r.images[0]
    ensures 0 <= index < |b.images| && b.images[index] == b.image && |b.images| > 1 ==> r.image == r.images[0]
  {
    var nouvelles := SansIndice(b.images, index);
    var retiree := 0 <= index < |b.images| && b.images[index] == b.image;
    b.(images := nouvelles, image := if retiree && |nouvelles| > 0 then nouvelles[0] else b.image)
  }

  /** `modifierImage` on a listed slot: the main image follows the slot when
      it held it, and an empty main image falls back to the first slot. */
  function ModifierImage(b: Brouillon, index: int, valeur: string): (r: Brouillon)
    requires 0 <= index < |b.images|
    ensures r == b.(images := r.images, image := r.image)
    ensures r.images == b.images[index := valeur]
    ensures b.images[index] == b.image && valeur != "" ==> r.image == valeur
    ensures b.images[index] != b.image && b.image != "" ==> r.image == b.image
    ensures b.images[index] == b.image && valeur == "" ==> r.image == r.images[0]
    ensures b.images[index] != b.image && b.image == "" ==> r.image == r.images[0]
    ensures r.image == "" ==> r.images[0] == ""
  {
    var nouvelles := b.images[index := valeur];
    var image := if b.images[index] == b.image then valeur else b.image;
    b.(images := nouvelles, image := if image != "" then image else nouvelles[0])
  }

  /** `definirImagePrincipale`. */
  function DefinirImagePrincipale(b: Brouillon, url: string): (r: Brouillon)
    ensures r.image == url && r == b.(image := url)
  {
    b.(image := url)
  }

  /** `togglePromotion`: turning the promotion on proposes 90% of the price;
      turning it off keeps the promotional price. */
  function TogglePromotion(b: Brouillon): (r: Brouillon)
    ensures r.enPromotion == !b.enPromotion
    ensures r == b.(enPromotion := r.enPromotion, prixPromotion := r.prixPromotion)
    ensures r.enPromotion ==> r.prixPromotion == b.prix * 0.9
    ensures !r.enPromotion ==> r.prixPromotion == b.prixPromotion
  {
    b.(enPromotion := !b.enPromotion, prixPromotion := if !b.enPromotion then b.prix * 0.9 else b.prixPromotion)
  }

  /** Turning the promotion on for a positive price gives a promotional
      price the submission accepts; twice toggled, the flag is back. */
  lemma TogglePromotionValide(b: Brouillon)
    requires !b.enPromotion && b.prix > 0.0
    ensures var r := TogglePromotion(b);
            r.prixPromotion != 0.0 && r.prixPromotion < r.prix
    ensures TogglePromotion(TogglePromotion(b)).enPromotion == b.enPromotion
  {
  }

  // ---------------------------------------------------------------------
  // Submission

  /** Why a submission is refused, in the order the checks run. */
  datatype Erreur =
    | NomRequis
    | ImageRequise
    | PrixInvalide
    | DescriptionRequise
    | IngredientVide
    | PrixPromotionInvalide
    | AucuneImage

  function NonBlanche(s: string): bool
  {
    !EstBlanc(s)
  }

  /** `Array.from(new Set(images.filter(img => img.trim() !== '')))`: each
      non-blank image once, in the order it first appears. */
  function ImagesUniques(images: seq<string>): (r: seq<string>)
    ensures SansDoublon(r)
    ensures forall i :: 0 <= i < |r| ==> r[i] in images && !EstBlanc(r[i])
    ensures forall i :: 0 <= i < |images| && !EstBlanc(images[i]) ==> images[i] in r
    ensures forall i, j :: 0 <= i < j < |r| ==> PremierIndex(images, r[i]) < PremierIndex(images, r[j])
  {
    var f := Filtrer(images, NonBlanche);
    FiltrerGarde(images, NonBlanche);
    var r := Distincts(f);
    assert forall i :: 0 <= i < |r| ==> r[i] in f;
    assert forall i, j :: 0 <= i < j < |r| ==> PremierIndex(images, r[i]) < PremierIndex(images, r[j]) by {
      forall i, j | 0 <= i < j < |r| ensures PremierIndex(images, r[i]) < PremierIndex(images, r[j]) {
        DistinctsFiltresOrdre(images, NonBlanche, i, j);
      }
    }
    r
  }

  /** The promotion check: a set promotion needs a non-zero promotional
      price below the price. */
  predicate PromotionInvalide(b: Brouillon)
  {
    b.enPromotion && (b.prixPromotion == 0.0 || b.prixPromotion >= b.prix)
  }

  /** The first four checks pass: name, main image, price, description. */
  predicate ChampsRemplis(b: Brouillon)
  {
    !EstBlanc(b.nom) && !EstBlanc(b.image) && b.prix > 0.0 && !EstBlanc(b.description)
  }

  /** No ingredient line is blank. */
  predicate IngredientsRemplis(b: Brouillon)
  {
    forall i :: 0 <= i < |b.ingredients| ==> !EstBlanc(b.ingredients[i])
  }

  /** All checks pass, in no particular order. */
  predicate Valide(b: Brouillon)
  {
    ChampsRemplis(b) && IngredientsRemplis(b) && !PromotionInvalide(b) && ImagesUniques(b.images) != []
  }

  /** The images sent: the clean list, with the main image put first when
      it is not in it. */
  function ImagesEnvoyees(b: Brouillon): (r: seq<string>)
    requires !EstBlanc(b.image)
    ensures b.image in r && SansDoublon(r)
    ensures forall i :: 0 <= i < |r| ==> !EstBlanc(r[i])
    ensures forall i :: 0 <= i < |r| ==> r[i] in b.images || r[i] == b.image
    ensures forall x :: x in b.images && !EstBlanc(x) ==> x in r
  {
    var uniques := ImagesUniques(b.images);
    var images := if b.image in uniques then uniques else [b.image] + uniques;
    assert forall i :: 1 <= i < |images| && b.image !in uniques ==> images[i] == uniques[i - 1];
    images
  }

  /** `handleSubmit` up to the service call: the first failing check
      refuses; otherwise the draft goes out with its de-duplicated non-blank
      images, the main image put first when it was not among them, and the
      current time. */
  function Soumettre(b: Brouillon, maintenant: int): (r: Result<Brouillon, Erreur>)
    ensures r.Ok? <==> Valide(b)
    ensures r == Err(NomRequis) <==> EstBlanc(b.nom)
    ensures r == Err(ImageRequise) <==> !EstBlanc(b.nom) && EstBlanc(b.image)
    ensures r == Err(PrixInvalide) <==> !EstBlanc(b.nom) && !EstBlanc(b.image) && b.prix <= 0.0
    ensures r == Err(DescriptionRequise)
            <==> !EstBlanc(b.nom) && !EstBlanc(b.image) && b.prix > 0.0 && EstBlanc(b.description)
    ensures r == Err(PrixPromotionInvalide) <==> ChampsRemplis(b) && IngredientsRemplis(b) && PromotionInvalide(b)
    ensures r == Err(AucuneImage)
            <==> ChampsRemplis(b) && IngredientsRemplis(b) && !PromotionInvalide(b) && ImagesUniques(b.images) == []
    ensures r.Ok? ==> r.value == b.(images := r.value.images, dateDeMiseAJour := maintenant)
    ensures r.Ok? ==> b.image in r.value.images && SansDoublon(r.value.images)
    ensures r.Ok? ==> forall i :: 0 <= i < |r.value.images| ==> !EstBlanc(r.value.images[i])
    ensures r.Ok? ==> forall i :: 0 <= i < |r.value.images| ==> r.value.images[i] in b.images || r.value.images[i] == b.image
    ensures r.Ok? ==> forall x :: x in b.images && !EstBlanc(x) ==> x in r.value.images
    ensures r.Ok? ==> var u := ImagesUniques(b.images);
                      r.value.images == if b.image in u then u else [b.image] + u
  {
    if EstBlanc(b.nom) then Err(NomRequis)
    else if EstBlanc(b.image) then Err(ImageRequise)
    else if b.prix <= 0.0 then Err(PrixInvalide)
    else if EstBlanc(b.description) then Err(DescriptionRequise)
    else if !IngredientsRemplis(b) then Err(IngredientVide)
    else if PromotionInvalide(b) then Err(PrixPromotionInvalide)
    else if ImagesUniques(b.images) == [] then Err(AucuneImage)
    else Ok(b.(images := ImagesEnvoyees(b), dateDeMiseAJour := maintenant))
  }

  /** A submission refused for a blank ingredient passed the earlier checks
      and had a blank ingredient. */
  lemma RefusIngredient(b: Brouillon, maintenant: int)
    ensures Soumettre(b, maintenant) == Err(IngredientVide)
            <==> !EstBlanc(b.nom) && !EstBlanc(b.image) && b.prix > 0.0 && !EstBlanc(b.description)
                 && exists i :: 0 <= i < |b.ingredients| && EstBlanc(b.ingredients[i])
  {
  }

  /** A fresh form is refused for its blank name before anything else. */
  lemma FormulaireVideRefuse(maintenant: int)
    ensures Soumettre(InitialCorrige(None, maintenant), maintenant) == Err(NomRequis)
  {
    assert EstBlanc(InitialCorrige(None, maintenant).nom);
  }

  /** A list of distinct non-blank images is left as it is by the clean-up. */
  lemma ImagesUniquesPropres(s: seq<string>)
    requires SansDoublon(s) && forall i :: 0 <= i < |s| ==> !EstBlanc(s[i])
    ensures ImagesUniques(s) == s
  {
    assert forall x :: x in s ==> NonBlanche(x);
    FiltrerIdentite(s, NonBlanche);
    DistinctsSansDoublon(s);
  }

  /** Submitting an accepted draft again changes nothing but the time: its
      images are already clean. */
  lemma SoumettreIdempotent(b: Brouillon, t1: int, t2: int)
    requires Soumettre(b, t1).Ok?
    ensures Soumettre(Soumettre(b, t1).value, t2) == Ok(Soumettre(b, t1).value.(dateDeMiseAJour := t2))
  {
    var b1 := Soumettre(b, t1).value;
    ImagesUniquesPropres(b1.images);
    assert b1.image in ImagesUniques(b1.images);
    assert Valide(b1);
  }
}
