/** The records shared by the storefront (src/types/index.ts) and the order
    document of src/models/commande.ts. */
module Types {
  import opened Wrappers

  /** A catalogue product. `prixPromotion` is optional; `dateDeMiseAJour` is
      the update time in milliseconds since the epoch. */
  datatype Produit = Produit(
    id: string,
    nom: string,
    image: string,
    images: seq<string>,
    prix: real,
    description: string,
    ingredients: seq<string>,
    categorie: string,
    enPromotion: bool,
    prixPromotion: Option<real>,
    enVedette: bool,
    disponible: bool,
    dateDeMiseAJour: int)

  /** A cart line: the product record spread with a quantity. */
  datatype ArticlePanier = ArticlePanier(produit: Produit, quantite: int)

  /** The price the cart, the catalogue filter and the catalogue sort charge:
      the promotional price when the promotion flag is set and the
      promotional price is truthy (present and non-zero), else the base price. */
  function PrixEffectif(p: Produit): real
  {
    if p.enPromotion && p.prixPromotion.Some? && p.prixPromotion.value != 0.0
    then p.prixPromotion.value
    else p.prix
  }

  /** The six order statuses. */
  datatype StatutCommande = EnAttente | Confirmee | Annulee | EnPreparation | Prete | Livree

  /** The string stored for each status. */
  function NomStatut(s: StatutCommande): string
  {
    match s
    case EnAttente => "en_attente"
    case Confirmee => "confirmee"
    case Annulee => "annulee"
    case EnPreparation => "en_preparation"
    case Prete => "prete"
    case Livree => "livree"
  }

  datatype HistoriqueEvent = HistoriqueEvent(statut: StatutCommande, date: int, commentaire: Option<string>)

  /** A product line of a stored order: the base price and the quantity. */
  datatype LigneCommande = LigneCommande(id: string, nom: string, image: Option<string>, prix: real, quantite: int)

  datatype InfoClient = InfoClient(nom: string, telephone: string, adresse: string)

  datatype Commande = Commande(
    id: string,
    produits: seq<LigneCommande>,
    prixTotal: real,
    infoClient: InfoClient,
    statut: StatutCommande,
    notes: Option<string>,
    historique: seq<HistoriqueEvent>)
}
