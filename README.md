# Bakery storefront — a Dafny model of its cart, catalogue and admin logic

This project models the logic of a Next.js/React bakery storefront. The
code's own names are kept, in French.

**Customer side**
- The shopping-cart reducer (`reducteurPanier`): seven actions, the shipping fee and the total.
- The "add to cart" button, which dispatches one AJOUTER_ARTICLE per unit.
- The cart list's quantity guard and its per-line price maths.
- The cart page's "saved for later" and "recently viewed" lists.
- The catalogue's search, filter and sort pipeline.

**Admin side**
- The product form: its list edits, validation and image clean-up.
- The order-notification context: an unread counter and a recent list capped at ten.
- The order document's `pre('save')` history hook.
- The admin orders page and the admin dashboard.
- The two-thumb price slider.

One Dafny module per source file:

| module | source file | form |
|---|---|---|
| `ContextePanier` | src/context/ContextePanier.tsx | pure: a total function `Reducteur` on a cart state |
| `BoutonAjoutPanier` | src/components/BoutonAjoutPanier.tsx | class `Bouton` (quantity counter, dispatch loop) |
| `ListePanier` | src/components/ListePanier.tsx | pure functions on the cart state |
| `PagePanier` | src/app/panier/page.tsx | class `Page` (saved and recently viewed lists) |
| `RechercheFiltreProduits` | src/components/RechercheFiltreProduits.tsx | functions for categories, bounds and filter guards; methods for the pipeline and an in-place insertion sort on an array |
| `FormulaireProduit` | src/components/FormulaireProduit.tsx | pure functions on a draft record |
| `ContexteNotifications` | src/context/ContexteNotifications.tsx | class `Notifications` |
| `ModeleCommande` | src/models/commande.ts | class `DocumentCommande` with the save hook; schema validation as a function |
| `PageCommandesAdmin` | src/app/admin/commandes/page.tsx | pure helpers and class `PageCommandes` |
| `TableauDeBordAdmin` | src/app/admin/page.tsx | pure search and class `TableauDeBord` |
| `Curseur` | src/components/ui/Slider.tsx | pure conversions and class `Glissiere` |

Four helper modules support these:
- `Types` holds the records of src/types/index.ts.
- `Listes` holds `filter`, `reduce`, `new Set`, `slice`.
- `Texte` holds `trim`, `toLowerCase`, `includes`, `split`.
- `Wrappers` holds `Option` and `Result`.

Modelling conventions:
- Money is `real`, so prices are exact.
- Quantities are `int`.
- Dates are integer timestamps. `new Date()` becomes a `maintenant` parameter.
- JavaScript truthiness of the optional promotional price is explicit: a product is charged `prixPromotion` only when it is on promotion and the promotional price is present and non-zero (`PrixEffectif`).
- Network outcomes are inputs. A fetch that fails is `None` or `reussite == false`.
- The browser's `confirm` dialog is a `confirme` input.

## Model

| member | source | states |
|---|---|---|
| ContextePanier.CalculerFraisLivraison | src/context/ContextePanier.tsx:23-36 | the fee is 0 exactly when the sub-total reaches 30, and 3.5 otherwise |
| ContextePanier.CalculerTotal | src/context/ContextePanier.tsx:38-40 | the total is the fee plus the discounted sub-total, floored at the fee alone (never below it) |
| ContextePanier.IndexArticle | src/context/ContextePanier.tsx:50 | `find` returns the first line with the id, or none when no line has it |
| ContextePanier.AvecLignes | src/context/ContextePanier.tsx:70-79 | after a line change the state carries the given lines and sub-total, keeps the discount, sets the fee by the rule, and has a total that agrees with sub-total, discount and fee |
| ContextePanier.Reducteur | src/context/ContextePanier.tsx:47-189 | every action either returns the state unchanged or a state whose total is coherent; a coherent total stays coherent |
| ContextePanier.AppliquerTete | src/context/ContextePanier.tsx:47-189 | dispatching one action and then the rest is dispatching the whole sequence |
| ContextePanier.TotalToujoursCoherent | src/context/ContextePanier.tsx:26-40 | every state reachable by any sequence of dispatches has `total == max(0, sousTotal - reduction) + fraisLivraison` |
| ContextePanier.EtatInitialCoherent | src/context/ContextePanier.tsx:26-32 | the initial state is coherent (no lines, zero sums) |
| ContextePanier.RegleFraisLivraison | src/context/ContextePanier.tsx:70-174 | AJOUTER, INITIALISER and SUPPRIMER/MODIFIER of a present id set the fee from the new sub-total; METTRE_A_JOUR_LIVRAISON stores its fee verbatim; VIDER_PANIER gives fee and sub-total 0 |
| ContextePanier.SommeMiseAJour | src/context/ContextePanier.tsx:119-126 | replacing one line changes the sum of line amounts by the difference of the two lines' amounts |
| ContextePanier.SommeRetrait | src/context/ContextePanier.tsx:90-91 | removing one line lowers the sum of line amounts by that line's amount |
| ContextePanier.IncrementerUnique | src/context/ContextePanier.tsx:59-63 | with unique ids the `map` of AJOUTER_ARTICLE raises exactly the matching line's quantity by one |
| ContextePanier.FixerQuantiteUnique | src/context/ContextePanier.tsx:120-124 | with unique ids the `map` of MODIFIER_QUANTITE sets exactly the matching line's quantity |
| ContextePanier.RetraitIdsUniques | src/context/ContextePanier.tsx:90 | deleting a line keeps ids unique |
| ContextePanier.RetirerUnique | src/context/ContextePanier.tsx:90 | with unique ids the `filter` of SUPPRIMER_ARTICLE deletes exactly that line, keeping the others in order |
| ContextePanier.IndexUnique | src/context/ContextePanier.tsx:50-105 | with unique ids, `find` on a line's id returns that line's position |
| ContextePanier.AjouterExistant | src/context/ContextePanier.tsx:58-64 | AJOUTER_ARTICLE on a present id: only that line's quantity grows by 1, in place; the sub-total grows by the payload's effective price; the discount is kept |
| ContextePanier.AjouterNouveau | src/context/ContextePanier.tsx:65-67 | AJOUTER_ARTICLE on a new id appends one line of quantity 1 at the end, raises the sub-total by the effective price, and ids stay unique |
| ContextePanier.IdAbsentInchange | src/context/ContextePanier.tsx:84-106 | SUPPRIMER_ARTICLE and MODIFIER_QUANTITE on an absent id return the state unchanged |
| ContextePanier.ModifierNegatifSupprime | src/context/ContextePanier.tsx:108-113 | MODIFIER_QUANTITE with a quantity of 0 or less is SUPPRIMER_ARTICLE |
| ContextePanier.SupprimerPresent | src/context/ContextePanier.tsx:82-101 | SUPPRIMER_ARTICLE on a present id removes exactly that line and takes effective price times quantity off the sub-total |
| ContextePanier.ModifierPresent | src/context/ContextePanier.tsx:115-136 | a positive MODIFIER_QUANTITE on a present id sets only that line's quantity and shifts the sub-total by price times the quantity difference |
| ContextePanier.ModifierIdempotent | src/context/ContextePanier.tsx:104-137 | dispatching the same MODIFIER_QUANTITE twice equals dispatching it once |
| ContextePanier.ReductionSeule | src/context/ContextePanier.tsx:139-148 | APPLIQUER_REDUCTION changes only the discount and the recomputed total |
| ContextePanier.ViderEtInconnue | src/context/ContextePanier.tsx:161-187 | VIDER_PANIER returns the initial state; an unknown action type returns the state unchanged |
| ContextePanier.MiseAJourIdsUniques | src/context/ContextePanier.tsx:59-124 | replacing a line by one with the same id keeps ids unique |
| ContextePanier.ProduitDifference | src/context/ContextePanier.tsx:119-126 | price times the new quantity is price times the old quantity plus price times the difference |
| ContextePanier.CoherenceAjoutExistant | src/context/ContextePanier.tsx:58-64 | re-adding a present product at a consistent price keeps unique ids and sub-total equal to the sum of line amounts |
| ContextePanier.CoherenceAjoutNouveau | src/context/ContextePanier.tsx:65-67 | adding a new product keeps the cart coherent |
| ContextePanier.CoherenceAjout | src/context/ContextePanier.tsx:49-79 | AJOUTER_ARTICLE at a price consistent with the stored line keeps the cart coherent |
| ContextePanier.CoherenceSuppression | src/context/ContextePanier.tsx:82-101 | SUPPRIMER_ARTICLE keeps the cart coherent |
| ContextePanier.CoherenceModificationPositive | src/context/ContextePanier.tsx:115-136 | a positive MODIFIER_QUANTITE on a present line keeps the cart coherent |
| ContextePanier.CoherenceModification | src/context/ContextePanier.tsx:104-137 | MODIFIER_QUANTITE, of any quantity, keeps the cart coherent |
| ContextePanier.CoherencePreservee | src/context/ContextePanier.tsx:47-189 | every action keeps unique ids and `sousTotal == Σ effective price × quantity` when the payload is consistent |
| ContextePanier.AjouterPuisSupprimer | src/context/ContextePanier.tsx:34-101 | adding then removing a product from the empty cart leaves no lines and sub-total 0 but fee and total 3.5, so not the initial state |
| ContextePanier.ReduireInitialisation | src/context/ContextePanier.tsx:164-184 | the INITIALISER_PANIER state holds the given lines, their recomputed sub-total, discount 0, the fee by the rule and a coherent total |
| ContextePanier.InitialisationRecalcule | src/context/ContextePanier.tsx:164-184 | from any state and for any lines, duplicates included, INITIALISER_PANIER installs the lines, recomputes sub-total, fee and total, and resets the discount to 0 |
| ContextePanier.InitialisationAccepteDoublons | src/context/ContextePanier.tsx:164-184 | the ids are not checked: two lines of one product are installed as given, breaking id uniqueness |
| ContextePanier.InstantaneAllerRetour | src/context/ContextePanier.tsx:164-184 | INITIALISER_PANIER with a coherent cart's lines restores its lines, sub-total and fee, resets the discount, and restores the total when there was no discount |
| BoutonAjoutPanier.Repeter | src/components/BoutonAjoutPanier.tsx:25-27 | the dispatch list holds `n` copies of the action, none when `n <= 0` |
| BoutonAjoutPanier.Bouton.constructor | src/components/BoutonAjoutPanier.tsx:13-17 | the internal counter starts at 1 |
| BoutonAjoutPanier.Bouton.AjouterAuPanier | src/components/BoutonAjoutPanier.tsx:19-27 | an unavailable product dispatches nothing; otherwise exactly `quantite` AJOUTER_ARTICLE of the product (none for a non-positive prop) |
| BoutonAjoutPanier.Bouton.AugmenterQuantite | src/components/BoutonAjoutPanier.tsx:39-43 | `+` raises the internal counter only when no prop quantity is given |
| BoutonAjoutPanier.Bouton.DiminuerQuantite | src/components/BoutonAjoutPanier.tsx:45-49 | `-` lowers it only without a prop quantity and above 1, so it never drops below 1 |
| BoutonAjoutPanier.UnAjout | src/context/ContextePanier.tsx:49-79 | one dispatch raises the product's quantity by 1 and the sub-total by its effective price, keeping ids unique |
| BoutonAjoutPanier.MultipleProduit | src/components/BoutonAjoutPanier.tsx:25-27 | the sub-total added by `n` repeated additions of a price is `n × price` |
| BoutonAjoutPanier.AjoutsIdsUniques | src/components/BoutonAjoutPanier.tsx:25-27 | `n` dispatches of the same product keep ids unique |
| BoutonAjoutPanier.AjoutsQuantite | src/components/BoutonAjoutPanier.tsx:25-27 | `n` dispatches raise the product's line quantity by `n` |
| BoutonAjoutPanier.AjoutsSousTotal | src/components/BoutonAjoutPanier.tsx:25-27 | `n` dispatches raise the sub-total by `n` times the effective price |
| BoutonAjoutPanier.AjoutsRepetes | src/components/BoutonAjoutPanier.tsx:19-27 | a click with quantity `n` on an available product leaves one line for it, with `n` more units, and unique ids |
| ListePanier.ModifierQuantite | src/components/ListePanier.tsx:26-35 | below 1 nothing happens; the alert shows exactly for a quantity of at least 1 above a known stock, and then nothing is dispatched; MODIFIER_QUANTITE with that id and quantity is dispatched exactly for a quantity of at least 1 within the stock or without one |
| ListePanier.BoutonsGardentLaLigne | src/components/ListePanier.tsx:26-145 | the `-`/`+` buttons never delete a line: they set that line's quantity or change nothing |
| ListePanier.MoinsSurUn | src/components/ListePanier.tsx:27-137 | `-` on a line of quantity 1 leaves the cart exactly as it was |
| ListePanier.Economie | src/components/ListePanier.tsx:69-128 | the savings badge shows exactly when the promotion badge does, and savings plus the line's shown sub-total equal base price × quantity |
| ListePanier.PrixAffiche | src/components/ListePanier.tsx:69-70 | the shown unit price is the promotional price under the badge, else the base price, and is the charged price unless the promotional price is 0 |
| ListePanier.SousTotalLigne | src/components/ListePanier.tsx:69-71 | the shown line sub-total is 0 for quantity 0 and is the amount the cart charges for the line unless the promotional price is 0 |
| ListePanier.PrixAfficheDiffere | src/components/ListePanier.tsx:69-71 | the shown price differs from the charged price exactly for a promotion at price 0 on a product with a non-zero base price |
| ListePanier.SommeAfficheeEgaleSousTotal | src/components/ListePanier.tsx:71-179 | without promotions at price 0, the shown line sub-totals sum to the cart's sub-total |
| ListePanier.BandeauLivraison | src/components/ListePanier.tsx:211-219 | the free-shipping banner shows exactly when the fee is positive and the sub-total non-zero; remainder plus sub-total is 30; the bar width is `min(100, sousTotal / 30 × 100)`: at most both, and equal to one of them |
| ListePanier.BandeauSousLeSeuil | src/components/ListePanier.tsx:211-219 | with the fee following the rule, the banner shows exactly below the threshold at a non-zero sub-total, with a positive remainder and a bar under 100 % |
| ListePanier.Rendu | src/components/ListePanier.tsx:46-230 | the list renders nothing exactly for an empty cart; one line per article; the shipping amount appears exactly for a positive fee and the discount row exactly for a positive discount |
| PagePanier.EntreeDepuis | src/app/panier/page.tsx:56-63 | a saved entry keeps the line's id and its base price |
| PagePanier.ProduitDepuis | src/app/panier/page.tsx:71-85 | the product rebuilt from an entry keeps id and price, with no promotion, available, without extra images or ingredients |
| PagePanier.Retrancher | src/app/panier/page.tsx:92-93 | `splice(index, 1)` removes the entry at an in-range index; a negative index removes the entry that far from the end, or the first one when it reaches past the start; an index past the end removes nothing |
| PagePanier.Page.constructor | src/app/panier/page.tsx:22-23 | both lists start empty |
| PagePanier.Page.Charger | src/app/panier/page.tsx:34-54 | a stored array of recently viewed entries gives its first four; a stored saved array replaces the list; unparseable text stops the loading; anything else is ignored |
| PagePanier.Page.DeplacerVersSauves | src/app/panier/page.tsx:56-69 | the entry is appended to the saved list and SUPPRIMER_ARTICLE is dispatched for its id |
| PagePanier.Page.DeplacerVersPanier | src/app/panier/page.tsx:71-96 | AJOUTER_ARTICLE is dispatched with the rebuilt product, and the entry at `index` leaves the saved list |
| PagePanier.Page.ViderPanier | src/app/panier/page.tsx:98-101 | clearing the cart dispatches VIDER_PANIER, which yields the initial cart from any state |
| PagePanier.Page.ViderEnregistres | src/app/panier/page.tsx:103-106 | the saved list becomes empty; the recent list is kept |
| PagePanier.PromotionPerdue | src/app/panier/page.tsx:56-85 | a product moved back from the saved list is charged its base price, so a real promotion is lost exactly when it differed |
| PagePanier.SauverPuisRemettre | src/app/panier/page.tsx:56-96 | saving line `k` and moving it back removes the line and appends a fresh line of quantity 1 at the end |
| PagePanier.NombreArticles | src/app/panier/page.tsx:262 | the header count is 0 for an empty cart and at least the number of lines when every line holds at least one item |
| PagePanier.NombreApresAjout | src/app/panier/page.tsx:262 | the header's item count rises by one per AJOUTER_ARTICLE |
| RechercheFiltreProduits.CategoriesBrutes | src/components/RechercheFiltreProduits.tsx:13 | `produits.map(p => p.categorie)`, position by position |
| RechercheFiltreProduits.Categories | src/components/RechercheFiltreProduits.tsx:13 | `toutes` first, then each product's category exactly once, nothing else, as the de-duplicated list of categories |
| Listes.FiltrerPremierIndex | src/components/FormulaireProduit.tsx:159 | `filter` keeps the order in which the kept elements first occur |
| Listes.DistinctsFiltresOrdre | src/components/FormulaireProduit.tsx:159 | de-duplicating the kept elements lists them in the order of their first occurrence in the input |
| Listes.DistinctsOrdrePremiereOccurrence | src/components/RechercheFiltreProduits.tsx:13 | the distinct categories appear in the order of their first occurrence |
| RechercheFiltreProduits.Minimum | src/components/RechercheFiltreProduits.tsx:16 | `Math.min` over a non-empty list is below every price and equal to one of them |
| RechercheFiltreProduits.Maximum | src/components/RechercheFiltreProduits.tsx:17 | `Math.max` over a non-empty list is above every price and equal to one of them |
| RechercheFiltreProduits.BorneBasse | src/components/RechercheFiltreProduits.tsx:16 | the lower bound is +∞ exactly for no products; otherwise an integer below every price and less than one above the smallest |
| RechercheFiltreProduits.BorneHaute | src/components/RechercheFiltreProduits.tsx:17 | the upper bound is −∞ exactly for no products; otherwise an integer above every price and less than one below the largest |
| RechercheFiltreProduits.FiltrageActif | src/components/RechercheFiltreProduits.tsx:20-43 | filtering is flagged active exactly when the filters differ from the defaults |
| RechercheFiltreProduits.Reinitialiser | src/components/RechercheFiltreProduits.tsx:128-138 | after a reset no filter is active |
| RechercheFiltreProduits.TermesNonVides | src/components/RechercheFiltreProduits.tsx:51-52 | a query that is not blank gives at least one search term |
| Texte.MotsNonVides | src/components/RechercheFiltreProduits.tsx:52 | a query with a non-space character has a term |
| Texte.MotsEspaces | src/components/RechercheFiltreProduits.tsx:52 | a query made only of spaces has no terms |
| RechercheFiltreProduits.Inserer | src/components/RechercheFiltreProduits.tsx:89-115 | one insertion step extends the sorted prefix by one element, permuting the array |
| RechercheFiltreProduits.TrierEnPlace | src/components/RechercheFiltreProduits.tsx:89-115 | `sort` leaves the array sorted on the key and a permutation of its old contents |
| RechercheFiltreProduits.TrierCopie | src/components/RechercheFiltreProduits.tsx:48-115 | sorting a copy gives a sorted permutation of the input |
| RechercheFiltreProduits.Selectionner | src/components/RechercheFiltreProduits.tsx:48-86 | the five successive filter steps keep, in order, exactly the products that pass every step |
| RechercheFiltreProduits.FiltrerEtTrier | src/components/RechercheFiltreProduits.tsx:34-118 | the effect flags activity as above and yields exactly the retained products, each as often as in the input, sorted on the chosen order's key |
| RechercheFiltreProduits.OrdrePrixCroissant | src/components/RechercheFiltreProduits.tsx:90-95 | sorted by ascending price, effective prices never decrease |
| RechercheFiltreProduits.OrdrePrixDecroissant | src/components/RechercheFiltreProduits.tsx:97-102 | sorted by descending price, effective prices never increase |
| RechercheFiltreProduits.OrdrePopulaires | src/components/RechercheFiltreProduits.tsx:110-113 | in the popular order every featured product precedes every other |
| RechercheFiltreProduits.OrdreNouveautes | src/components/RechercheFiltreProduits.tsx:107-108 | in the newest-first order update dates never increase |
| RechercheFiltreProduits.PromotionMasquee | src/components/RechercheFiltreProduits.tsx:16-75 | with bounds over base prices, the default filters hide an available croissant at 5 € promoted to 3 € |
| RechercheFiltreProduits.DefautsGardentLesDisponibles | src/components/RechercheFiltreProduits.tsx:20-86 | with bounds over effective prices, the default filters keep every available product |
| FormulaireProduit.Initial | src/components/FormulaireProduit.tsx:17-30 | a new form has empty fields, price 0, flags off, one blank ingredient, category `Non classé` and the current time; an edit form copies name, images, price, description, ingredients, flags and date, with an empty category read as `Non classé` and a missing promotional price as 0; availability is always true |
| FormulaireProduit.DisponibiliteForcee | src/components/FormulaireProduit.tsx:28-173 | editing an unavailable product shows it available, and submitting the form unchanged publishes it available |
| FormulaireProduit.InitialCorrige | src/components/FormulaireProduit.tsx:17-30 | the form state with the product's own availability kept, otherwise the same as the initial state |
| FormulaireProduit.EditionGardeDisponibilite | src/components/FormulaireProduit.tsx:28-173 | with availability kept, an accepted edit keeps the product's availability |
| FormulaireProduit.SansIndice | src/components/FormulaireProduit.tsx:51-78 | `filter((_, i) => i !== index)` drops the entry at an in-range index and keeps the others in order |
| FormulaireProduit.AIndice | src/components/FormulaireProduit.tsx:58 | `map((x, i) => i === index ? v : x)` changes only position `index` |
| FormulaireProduit.AjouterIngredient | src/components/FormulaireProduit.tsx:41-46 | one blank ingredient is appended; nothing else changes |
| FormulaireProduit.SupprimerIngredient | src/components/FormulaireProduit.tsx:48-53 | the ingredient at an in-range index is removed; other indexes change nothing |
| FormulaireProduit.ModifierIngredient | src/components/FormulaireProduit.tsx:55-60 | only the ingredient at `index` takes the new value |
| FormulaireProduit.AjouterImage | src/components/FormulaireProduit.tsx:62-74 | a blank slot is appended, preceded by the main image when it is set and not yet listed |
| FormulaireProduit.AjouterImageListeLaPrincipale | src/components/FormulaireProduit.tsx:62-74 | after adding a slot, a set main image is listed, and the list grew by one or two |
| FormulaireProduit.SupprimerImage | src/components/FormulaireProduit.tsx:76-85 | the entry is dropped; removing the main image promotes the first remaining image |
| FormulaireProduit.ModifierImage | src/components/FormulaireProduit.tsx:87-99 | only slot `index` changes; editing the main image's slot moves the main image along; whenever the main image would be empty (its slot cleared, or none set) it falls back to the first slot |
| FormulaireProduit.DefinirImagePrincipale | src/components/FormulaireProduit.tsx:101-106 | only the main image changes |
| FormulaireProduit.TogglePromotion | src/components/FormulaireProduit.tsx:108-114 | the flag flips; switching on sets the promotional price to 90 % of the price; switching off keeps it |
| FormulaireProduit.TogglePromotionValide | src/components/FormulaireProduit.tsx:108-157 | switching a promotion on for a positive price yields a promotional price the submission accepts; toggling twice restores the flag |
| FormulaireProduit.ImagesUniques | src/components/FormulaireProduit.tsx:159 | the clean image list has no duplicates and no blanks, keeps every non-blank image, and lists them in the order of their first occurrence |
| FormulaireProduit.ImagesEnvoyees | src/components/FormulaireProduit.tsx:159-167 | the images sent hold the main image, no duplicates and no blanks, every non-blank listed image, and nothing else |
| FormulaireProduit.Soumettre | src/components/FormulaireProduit.tsx:126-173 | accepted exactly when valid; each refusal (name, main image, price, description, promotion, no image) is reported exactly when its check is the first to fail; an accepted draft keeps every field but images and date, and its images are the clean list, preceded by the main image when it is not in it, so it holds every non-blank image and only images it had, without duplicates or blanks |
| FormulaireProduit.RefusIngredient | src/components/FormulaireProduit.tsx:129-152 | a blank ingredient is reported exactly when the earlier checks pass and some ingredient is blank |
| FormulaireProduit.FormulaireVideRefuse | src/components/FormulaireProduit.tsx:17-132 | a fresh form is refused for its blank name |
| FormulaireProduit.ImagesUniquesPropres | src/components/FormulaireProduit.tsx:159 | a list already distinct and non-blank is left as it is by the clean-up |
| FormulaireProduit.SoumettreIdempotent | src/components/FormulaireProduit.tsx:126-173 | re-submitting an accepted draft is accepted and changes only the date |
| ContexteNotifications.Fusion | src/context/ContexteNotifications.tsx:140-163 | the merged list has the new orders first, then the old ones, cut at ten |
| ContexteNotifications.FusionsSuccessives | src/context/ContexteNotifications.tsx:140-163 | merging two batches in turn equals merging them at once, the later batch in front |
| ContexteNotifications.SansDedoublonnage | src/context/ContexteNotifications.tsx:104-140 | an order arriving again is listed once more while the list has room |
| ContexteNotifications.Notifications.constructor | src/context/ContexteNotifications.tsx:20-22 | counter 0, no last order, empty list |
| ContexteNotifications.Notifications.DefinirNouvellesCommandes | src/context/ContexteNotifications.tsx:20 | the counter takes the given value; nothing else changes |
| ContexteNotifications.Notifications.MarquerCommandesVues | src/context/ContexteNotifications.tsx:156-158 | the counter returns to 0; the lists are kept |
| ContexteNotifications.Notifications.AjouterNouvelleCommande | src/context/ContexteNotifications.tsx:160-163 | the counter rises by one, the order becomes the last order and the head of the list, which stays at ten or fewer |
| ContexteNotifications.Notifications.Sonder | src/context/ContexteNotifications.tsx:100-142 | a non-empty batch of `k` orders adds `k` to the counter, goes in front of the list, and its first order becomes the last; anything else changes nothing |
| ContexteNotifications.Notifications.SupprimerCommande | src/context/ContexteNotifications.tsx:199-219 | on success every entry with the id leaves the list and the last order is cleared iff it has that id, the counter untouched; on failure `false` and nothing changes |
| ContexteNotifications.Notifications.SupprimerToutesCommandes | src/context/ContexteNotifications.tsx:222-241 | on success list, last order and counter are cleared; on failure `false` and nothing changes |
| ModeleCommande.StatutDepuisTexte | src/models/commande.ts:78-82 | a string is accepted as a status only if it is that status's name |
| ModeleCommande.StatutAllerRetour | src/models/commande.ts:78-92 | every status's name is accepted as that status |
| ModeleCommande.Valider | src/models/commande.ts:54-82 | accepted exactly when the status is absent or valid and every line has quantity at least 1; an absent status defaults to `en_attente`; a quantity error names a line below 1 |
| ModeleCommande.PremiereQuantiteInvalide | src/models/commande.ts:54-58 | finds a line with quantity below 1 exactly when there is one |
| ModeleCommande.HistoriqueApres | src/models/commande.ts:105-119 | a missing history is `[]`; a new or status-changed order gets exactly one entry appended with the current status, date and the matching comment; otherwise the history is unchanged |
| ModeleCommande.DocumentCommande.constructor | src/models/commande.ts:105-119 | the document's fields as given |
| ModeleCommande.DocumentCommande.PreSave | src/models/commande.ts:105-119 | the hook leaves the history as described above and changes nothing else |
| ModeleCommande.CreationPuisChangements | src/models/commande.ts:110-116 | creation followed by two status changes records the three statuses in order, the first commented as the creation |
| ModeleCommande.SauvegardeSansChangement | src/models/commande.ts:110 | a save of an existing order without a status change leaves the history as it was |
| PageCommandesAdmin.CalculerTotal | src/app/admin/commandes/page.tsx:64-66 | an order without lines totals 0; lines with non-negative prices and quantities give a non-negative total |
| PageCommandesAdmin.TotalNonNegatif | src/app/admin/commandes/page.tsx:64-66 | for schema-valid lines with non-negative prices the order total is non-negative |
| PageCommandesAdmin.Libelle | src/app/admin/commandes/page.tsx:87-104 | a missing status reads `En attente`; `Inconnu` appears exactly for strings naming no status |
| PageCommandesAdmin.LibellesDistincts | src/app/admin/commandes/page.tsx:87-104 | two different statuses never share a label |
| PageCommandesAdmin.Badge | src/app/admin/commandes/page.tsx:68-85 | a missing status is yellow; an unknown one is grey |
| PageCommandesAdmin.BadgeGrisPartage | src/app/admin/commandes/page.tsx:68-85 | grey is shared by delivered orders and unknown statuses only |
| PageCommandesAdmin.FiltrerCommandes | src/app/admin/commandes/page.tsx:106-111 | `tous` returns the list unchanged; any other value keeps only orders with that status and all of them |
| PageCommandesAdmin.FiltreInconnuVide | src/app/admin/commandes/page.tsx:106-111 | a filter value naming no status shows nothing |
| PageCommandesAdmin.EffectifTete | src/app/admin/commandes/page.tsx:106-111 | the first order counts under its own status's filter only |
| PageCommandesAdmin.RepartitionParStatut | src/app/admin/commandes/page.tsx:106-111 | the six status filters together show every order exactly once |
| PageCommandesAdmin.Remplacer | src/app/admin/commandes/page.tsx:137-139 | the `map` keeps length and order and replaces exactly the entries with the returned order's id |
| PageCommandesAdmin.MiseAJourDeplace | src/app/admin/commandes/page.tsx:137-139 | with unique ids, an update moves the order from its old status's count to its new one and leaves the other counts alone |
| PageCommandesAdmin.RemplacerAbsent | src/app/admin/commandes/page.tsx:137-139 | a returned order whose id is not listed leaves the list as it was |
| PageCommandesAdmin.RemplacerGardeLesIds | src/app/admin/commandes/page.tsx:137-139 | replacing keeps every position's id |
| PageCommandesAdmin.SuppressionEtFiltre | src/app/admin/commandes/page.tsx:106-167 | deleting an order and then filtering equals filtering and then deleting |
| PageCommandesAdmin.CommentaireEnvoye | src/app/admin/commandes/page.tsx:126 | the typed comment is sent when not empty; otherwise the default is `Statut changé à "…"` quoting the new status's own label |
| PageCommandesAdmin.PageCommandes.constructor | src/app/admin/commandes/page.tsx:19-25 | empty list, filter `tous`, no selection, empty form |
| PageCommandesAdmin.PageCommandes.Charger | src/app/admin/commandes/page.tsx:30-49 | a fetched list replaces the state; a failure keeps it |
| PageCommandesAdmin.PageCommandes.MettreAJourStatut | src/app/admin/commandes/page.tsx:113-152 | no request without a selection and a chosen status; on success the entry is replaced, the returned order selected and the form cleared; on failure nothing changes |
| PageCommandesAdmin.PageCommandes.SupprimerCommande | src/app/admin/commandes/page.tsx:154-181 | on success the id leaves the list and the selection is cleared iff it is that order; on failure nothing changes |
| PageCommandesAdmin.PageCommandes.SupprimerToutes | src/app/admin/commandes/page.tsx:183-207 | on success the list is emptied and the selection cleared; on failure nothing changes |
| TableauDeBordAdmin.ProduitsFiltres | src/app/admin/page.tsx:48-53 | an empty query shows every product; otherwise exactly the products whose lower-cased name or description contains the lower-cased query |
| TableauDeBordAdmin.RechercheInsensibleALaCasse | src/app/admin/page.tsx:49-52 | the result does not depend on the query's case |
| TableauDeBordAdmin.RechercheAffinee | src/app/admin/page.tsx:48-53 | typing more of a query only narrows the list |
| TableauDeBordAdmin.SuppressionUnSeul | src/app/admin/page.tsx:40 | deleting a listed product from a list with distinct ids removes exactly one entry |
| TableauDeBordAdmin.SuppressionCoherente | src/app/admin/page.tsx:40-41 | such a deletion also keeps the ids distinct |
| TableauDeBordAdmin.SuppressionAbsente | src/app/admin/page.tsx:40 | deleting an id the list does not hold leaves it as it was |
| TableauDeBordAdmin.FiltrerSansDoublonIds | src/app/admin/page.tsx:40 | filtering keeps ids distinct |
| TableauDeBordAdmin.CompteDecaleSiAbsent | src/app/admin/page.tsx:40-41 | deleting an unlisted id keeps the list's length, so the decremented count is one below it |
| TableauDeBordAdmin.TableauDeBord.constructor | src/app/admin/page.tsx:11-14 | empty list, count 0, empty query, coherent |
| TableauDeBordAdmin.TableauDeBord.Charger | src/app/admin/page.tsx:16-31 | the fetched list and its length; a failure changes nothing |
| TableauDeBordAdmin.TableauDeBord.SupprimerProduit | src/app/admin/page.tsx:33-46 | a confirmed, successful delete removes the id and lowers the count by one, keeping count equal to length for a listed id; otherwise nothing changes |
| Texte.ContientPrefixe | src/app/admin/page.tsx:50-51 | a prefix of a contained string is contained |
| Texte.MinusculesIdempotent | src/app/admin/page.tsx:50-51 | lower-casing twice is lower-casing once |
| Curseur.Arrondi | src/components/ui/Slider.tsx:25 | `Math.round` gives the integer within half a unit, halves up |
| Curseur.Borner | src/components/ui/Slider.tsx:26-43 | the clamp lies in the range when it is non-empty and returns a value already in it unchanged |
| Curseur.Pourcentage | src/components/ui/Slider.tsx:19-21 | the percentage times the track's width is 100 times the value's offset from `min` |
| Curseur.PourcentageAuxBornes | src/components/ui/Slider.tsx:19-21 | `min` sits at 0 %, `max` at 100 %, values between at 0–100 % |
| Curseur.FractionBornee | src/components/ui/Slider.tsx:19-21 | a part of a positive whole is a fraction in [0, 1] |
| Curseur.Valeur | src/components/ui/Slider.tsx:23-27 | `getValue` always lies in [min, max] (and is `max` when the range is empty) |
| Curseur.PourcentageInverse | src/components/ui/Slider.tsx:19-24 | reading a value's percentage back gives the value |
| Curseur.ValeurAllerRetour | src/components/ui/Slider.tsx:19-27 | a value on the step grid within range is found again at its own percentage |
| Curseur.Glissiere.constructor | src/components/ui/Slider.tsx:13-14 | no thumb dragged at first |
| Curseur.Glissiere.Saisir | src/components/ui/Slider.tsx:29-37 | pressing a thumb starts dragging it |
| Curseur.Glissiere.Relacher | src/components/ui/Slider.tsx:65-67 | releasing stops the drag |
| Curseur.Glissiere.Deplacer | src/components/ui/Slider.tsx:39-55 | without a drag nothing is sent; dragging `min` keeps `value[1]` and puts `value[0]` at most a step below it; dragging `max` is symmetric; thumbs stay in range when the other leaves room |
| Curseur.Plafond | src/components/ui/Slider.tsx:49 | `Math.min` is below both arguments and one of them |
| Curseur.Plancher | src/components/ui/Slider.tsx:51 | `Math.max` is above both arguments and one of them |
| Curseur.DeuxDeplacementsEcartes | src/components/ui/Slider.tsx:46-52 | dragging the lower thumb and then the upper leaves them at least a step apart |

## Left out

- Browser storage: the cart's `localStorage` persistence, the page's storage writes, and the notifications' stored list. JSON parsing is not modelled; the page's loading takes the parsed outcome (`Stocke`) as input.
- The notifications' storage load (src/context/ContexteNotifications.tsx:50-72) is not modelled. It can install a stored list longer than ten, so the ten-entry cap is stated only for lists the handlers build.
- Network and database I/O: every `fetch` and service call is an input (`reussite`, `Option` responses). The API routes, the database connection and the schemas beyond the history hook and the enum and quantity checks are not part of this model.
- Timers, the 30-second poll cadence, audio, toasts and the animation delay of `supprimerArticle` in src/components/ListePanier.tsx:37-43 are left out. Its effect is a plain SUPPRIMER_ARTICLE, which `ContextePanier` covers.
- Rendering (JSX, images, links) and the admin login are left out. So is the rendered `0` that `etat.sousTotal && …` shows at a zero sub-total.
- Runtime formatting: `toFixed`, `Intl.DateTimeFormat` and the `URL` check are left out. `localeCompare` becomes a caller-supplied `rangNom` key. Date parsing for the newest-first order is replaced by integer timestamps.
- IEEE floating point: prices are exact reals, so rounding drift from repeated `sousTotal ± prix` updates is not modelled. The ×0.9 of the promotion toggle is an exact multiplication.
- RechercheFiltreProduits.TrierEnPlace: the result is proved sorted and a permutation, but not stable. JavaScript's `sort` is stable, so the order of equal keys is not captured.
- RechercheFiltreProduits.TrierCopie: not proved stable, for the same reason as `TrierEnPlace`, which it calls.
- RechercheFiltreProduits.FiltrerEtTrier: its sorted result is not proved stable either, so equal keys may come out in any order.
- RechercheFiltreProduits.FiltrerEtTrier: the `recherche` and `categorie` fields are compared as strings. The `FiltreCategorie` and `OrdreDeTri` string unions are collapsed into `Ordre` and plain strings.
- Texte.Minuscule: lower-cases only ASCII, the Latin-1 capitals À–Þ (except ×), Œ and Ÿ, one character for one. JavaScript's `toLowerCase` covers all of Unicode and can change the length (İ, U+0130, becomes two characters), so `Texte.EnMinuscules` keeps the length where JavaScript may not.
- FormulaireProduit.ModifierImage: requires an in-range index. JavaScript would extend the array with holes for an index past the end, and the form only passes indexes of existing slots.
- BoutonAjoutPanier.AjoutsSousTotal: states the sub-total through repeated addition (`Multiple`). `MultipleProduit` relates that to `n × price` separately.
- Curseur.Valeur and Curseur.Deplacer: require `step > 0`. A zero step divides by zero in JavaScript and yields `NaN`, which reals cannot represent. `Pourcentage` likewise requires `max != min`.
- Curseur.Glissiere.Deplacer: takes the pointer's offset across the track as a percentage. The `getBoundingClientRect` geometry and the missing-ref check are left out.
- The marketing text's 25 € free-shipping threshold is not modelled. It disagrees with the code; the model uses the code's threshold of 30 (src/context/ContextePanier.tsx:23).
- The admin orders page computes totals from base line prices and shows shipping as free. This is modelled as written, without relating it to the cart's own total.

## Findings

| source | as written | input that shows it | evidently intended | confidence | as-written member | corrected member |
|---|---|---|---|---|---|---|
| src/components/RechercheFiltreProduits.tsx:16-17 | the default price bounds are the floor and ceiling of the base prices, while the price filter (lines 72-75) compares the effective, promotional price | one available product at price 5 on promotion at 3: the default range is [5, 5] and the product is hidden with no filter touched | bounds over the same effective price the filter compares, so the defaults hide no available product | not executed | RechercheFiltreProduits.PromotionMasquee | RechercheFiltreProduits.DefautsGardentLesDisponibles |
| src/components/FormulaireProduit.tsx:28 | `disponible: produitInitial?.disponible \|\| true` is always true | editing a product with `disponible: false`: the checkbox shows it available, and saving unchanged publishes it | keep the product's availability (`?? true`) | not executed | FormulaireProduit.DisponibiliteForcee | FormulaireProduit.EditionGardeDisponibilite |
