/** The admin notification state of src/context/ContexteNotifications.tsx:
    an unread-order counter, the last order received and a recent-orders
    list capped at ten entries, updated by handlers and by the poll. */
module ContexteNotifications {
  import opened Wrappers
  import opened Listes
  import opened Types

  const CapaciteRecentes: nat := 10

  /** `[...nouvelles, ...prev].slice(0, 10)`: newest first, at most ten. */
  function Fusion(nouvelles: seq<Commande>, prev: seq<Commande>): (r: seq<Commande>)
    ensures |r| <= CapaciteRecentes
    ensures |r| == if |nouvelles| + |prev| < CapaciteRecentes then |nouvelles| + |prev| else CapaciteRecentes
    ensures forall i :: 0 <= i < |r| && i < |nouvelles| ==> r[i] == nouvelles[i]
    ensures forall i :: |nouvelles| <= i < |r| ==> r[i] == prev[i - |nouvelles|]
  {
    Prendre(nouvelles + prev, CapaciteRecentes)
  }

  /** Merging two batches one after the other is merging them at once,
      the later batch in front. */
  lemma FusionsSuccessives(a: seq<Commande>, b: seq<Commande>, prev: seq<Commande>)
    ensures Fusion(a, Fusion(b, prev)) == Fusion(a + b, prev)
  {
    var g := Fusion(a, Fusion(b, prev));
    var d := Fusion(a + b, prev);
    assert |g| == |d|;
    forall i | 0 <= i < |g| ensures g[i] == d[i] {
      if i < |a| {
        assert d[i] == (a + b)[i];
      } else if i < |a| + |b| {
        assert g[i] == Fusion(b, prev)[i - |a|];
        assert d[i] == (a + b)[i];
      } else {
        assert g[i] == Fusion(b, prev)[i - |a|];
        assert d[i] == prev[i - |a| - |b|];
      }
    }
  }

  /** Orders are not de-duplicated: an order already listed is listed once
      more when it arrives again, as long as the list has room. */
  lemma SansDedoublonnage(c: Commande, prev: seq<Commande>)
    requires |prev| < CapaciteRecentes
    ensures multiset(Fusion([c], prev))[c] == multiset(prev)[c] + 1
  {
    assert Fusion([c], prev) == [c] + prev;
  }

  class Notifications {
    var nouvellesCommandes: int
    var derniereCommande: Option<Commande>
    var commandesRecentes: seq<Commande>

    constructor ()
      ensures nouvellesCommandes == 0 && derniereCommande == None && commandesRecentes == []
    {
      nouvellesCommandes := 0;
      derniereCommande := None;
      commandesRecentes := [];
    }

    /** `setNouvellesCommandes`. */
    method DefinirNouvellesCommandes(n: int)
      modifies this
      ensures nouvellesCommandes == n
      ensures derniereCommande == old(derniereCommande) && commandesRecentes == old(commandesRecentes)
    {
      nouvellesCommandes := n;
    }

    /** `marquerCommandesVues`: the counter goes back to 0. */
    method MarquerCommandesVues()
      modifies this
      ensures nouvellesCommandes == 0
      ensures derniereCommande == old(derniereCommande) && commandesRecentes == old(commandesRecentes)
    {
      nouvellesCommandes := 0;
    }

    /** `ajouterNouvelleCommande`: one more unread order, which becomes the
      last order and the head of the recent list. */
    method AjouterNouvelleCommande(c: Commande)
      modifies this
      ensures nouvellesCommandes == old(nouvellesCommandes) + 1
      ensures derniereCommande == Some(c)
      ensures commandesRecentes == Fusion([c], old(commandesRecentes))
      ensures |commandesRecentes| <= CapaciteRecentes && commandesRecentes[0] == c
    {
      nouvellesCommandes := nouvellesCommandes + 1;
      derniereCommande := Some(c);
      commandesRecentes := Fusion([c], commandesRecentes);
    }

    /** One poll. `reponse` is the `nouvellesCommandes` array of a successful
      response, `None` when the request failed or carried none. A non-empty
      batch of `k` orders adds `k` to the counter, goes in front of the
      recent list and its first order becomes the last order; anything else
      changes nothing. */
    method Sonder(reponse: Option<seq<Commande>>)
      modifies this
      ensures reponse.Some? && |reponse.value| > 0 ==>
                nouvellesCommandes == old(nouvellesCommandes) + |reponse.value|
                && commandesRecentes == Fusion(reponse.value, old(commandesRecentes))
                && derniereCommande == Some(reponse.value[0])
      ensures !(reponse.Some? && |reponse.value| > 0) ==>
                nouvellesCommandes == old(nouvellesCommandes)
                && commandesRecentes == old(commandesRecentes)
                && derniereCommande == old(derniereCommande)
      ensures reponse.Some? && |reponse.value| > 0 ==> |commandesRecentes| <= CapaciteRecentes
    {
      if reponse.Some? && |reponse.value| > 0 {
        var lot := reponse.value;
        nouvellesCommandes := nouvellesCommandes + |lot|;
        commandesRecentes := Fusion(lot, commandesRecentes);
        derniereCommande := Some(lot[0]);
      }
    }

    /** `supprimerCommande`: `reussite` is the outcome of the DELETE request.
      On success every entry with that id leaves the recent list and the last
      order is cleared if it has that id; the counter is left alone. On
      failure nothing changes. */
    method SupprimerCommande(id: string, reussite: bool) returns (ok: bool)
      modifies this
      ensures ok == reussite
      ensures nouvellesCommandes == old(nouvellesCommandes)
      ensures ok ==> commandesRecentes == Filtrer(old(commandesRecentes), (c: Commande) => c.id != id)
      ensures ok ==> derniereCommande == if old(derniereCommande).Some? && old(derniereCommande).value.id == id
                                         then None else old(derniereCommande)
      ensures ok ==> forall i :: 0 <= i < |commandesRecentes| ==> commandesRecentes[i].id != id
      ensures !ok ==> commandesRecentes == old(commandesRecentes) && derniereCommande == old(derniereCommande)
    {
      if !reussite {
        return false;
      }
      commandesRecentes := Filtrer(commandesRecentes, (c: Commande) => c.id != id);
      if derniereCommande.Some? && derniereCommande.value.id == id {
        derniereCommande := None;
      }
      return true;
    }

    /** `supprimerToutesCommandes`: on success everything is cleared and the
      counter reset; on failure nothing changes. */
    method SupprimerToutesCommandes(reussite: bool) returns (ok: bool)
      modifies this
      ensures ok == reussite
      ensures ok ==> commandesRecentes == [] && derniereCommande == None && nouvellesCommandes == 0
      ensures !ok ==> commandesRecentes == old(commandesRecentes) && derniereCommande == old(derniereCommande)
                      && nouvellesCommandes == old(nouvellesCommandes)
    {
      if !reussite {
        return false;
      }
      commandesRecentes := [];
      derniereCommande := None;
      nouvellesCommandes := 0;
      return true;
    }
  }
}
