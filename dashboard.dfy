/**
 * The seller dashboard (app/dashboard/page.tsx): the seller's listing query, and
 * the delete and status-toggle handlers, which replace the page's list only
 * after the store reports success.
 */
module Dashboard {
  import opened Wrappers
  import opened Database
  import opened Seqs

  /** `currentStatus === 'active' ? 'inactive' : 'active'`. */
  function NextStatus(current: Status): (r: Status)
    ensures r != Sold
    ensures r == Inactive <==> current == Active
  {
    if current == Active then Inactive else Active
  }

  /** Toggling twice restores 'active' and 'inactive', but turns 'sold' into 'inactive'. */
  lemma ToggleTwice(s: Status)
    ensures NextStatus(NextStatus(s)) == if s == Sold then Inactive else s
  {
  }

  // ---------------------------------------------------------------------------
  // The listing query.

  function OwnedBy(user: Id): Product -> bool
  {
    (p: Product) => p.userId == user
  }

  function Newest(p: Product): int
  {
    -(p.createdAt as int)
  }

  /** `eq('user_id', user).order('created_at', { ascending: false })`. */
  function MyListings(table: seq<Product>, user: Id): seq<Product>
  {
    SortBy(Filter(table, OwnedBy(user)), Newest)
  }

  /** The query returns exactly the user's rows, with their multiplicities, newest first. */
  lemma MyListingsSpec(table: seq<Product>, user: Id)
    ensures var r := MyListings(table, user);
            && (forall p :: multiset(r)[p] == if p.userId == user then multiset(table)[p] else 0)
            && (forall i, j :: 0 <= i < j < |r| ==> r[i].createdAt >= r[j].createdAt)
  {
    var r := MyListings(table, user);
    forall i, j | 0 <= i < j < |r| ensures r[i].createdAt >= r[j].createdAt {
      assert Newest(r[i]) <= Newest(r[j]);
    }
  }

  // ---------------------------------------------------------------------------
  // The list updates.

  function HasOtherId(id: Id): Product -> bool
  {
    (p: Product) => p.id != id
  }

  /** `products.filter(p => p.id !== id)`. */
  function WithoutId(ps: seq<Product>, id: Id): seq<Product>
  {
    Filter(ps, HasOtherId(id))
  }

  /** Deleting removes every entry with the id and keeps all others, in their order. */
  lemma WithoutIdSpec(ps: seq<Product>, id: Id)
    ensures forall p :: p in WithoutId(ps, id) <==> p in ps && p.id != id
    ensures forall p: Product :: p.id != id ==> multiset(WithoutId(ps, id))[p] == multiset(ps)[p]
    ensures IsSubseq(WithoutId(ps, id), ps)
    ensures WithoutId(WithoutId(ps, id), id) == WithoutId(ps, id)
  {
    FilterIsSubseq(ps, HasOtherId(id));
    FilterAll(WithoutId(ps, id), HasOtherId(id));
  }

  /** `products.map(p => p.id === id ? { ...p, status } : p)`. */
  function WithStatus(ps: seq<Product>, id: Id, status: Status): (r: seq<Product>)
    ensures |r| == |ps|
  {
    seq(|ps|, i requires 0 <= i < |ps| => if ps[i].id == id then ps[i].(status := status) else ps[i])
  }

  /**
   * Toggling changes only the status of the entries with the id: length, order and
   * every other field stay as they were.
   */
  lemma WithStatusSpec(ps: seq<Product>, id: Id, status: Status)
    ensures var r := WithStatus(ps, id, status);
            && |r| == |ps|
            && (forall i :: 0 <= i < |ps| ==> r[i].(status := ps[i].status) == ps[i])
            && (forall i :: 0 <= i < |ps| ==> r[i].status == if ps[i].id == id then status else ps[i].status)
  {
  }

  /** Deleting after a toggle of the same id is deleting. */
  lemma DeleteAfterToggle(ps: seq<Product>, id: Id, status: Status)
    ensures WithoutId(WithStatus(ps, id, status), id) == WithoutId(ps, id)
  {
    FilterSameSurvivors(WithStatus(ps, id, status), ps, HasOtherId(id));
  }

  // ---------------------------------------------------------------------------
  // The page state.

  class DashboardPage {
    var user: Option<Id>
    var products: seq<Product>
    var loading: bool

    constructor ()
      ensures user == None && products == [] && loading
    {
      user := None;
      products := [];
      loading := true;
    }

    method SetUser(u: Option<Id>)
      modifies this`user
      ensures user == u
    {
      user := u;
    }

    /**
     * `fetchMyProducts`: without a signed-in user it returns at once and the page
     * stays loading; otherwise a successful query replaces the list, and loading ends.
     */
    method FetchMyProducts(signedIn: Option<Id>, table: seq<Product>, ok: bool)
      modifies this`products, this`loading
      ensures signedIn.None? ==> products == old(products) && loading == old(loading)
      ensures signedIn.Some? ==> !loading
      ensures signedIn.Some? && ok ==> products == MyListings(table, signedIn.value)
      ensures signedIn.Some? && !ok ==> products == old(products)
    {
      if signedIn.None? {
        return;
      }
      if ok {
        products := MyListings(table, signedIn.value);
      }
      loading := false;
    }

    /** `handleDelete`: the list drops the id only once the user confirmed and the store succeeded. */
    method HandleDelete(id: Id, confirmed: bool, ok: bool)
      modifies this`products
      ensures products == if confirmed && ok then WithoutId(old(products), id) else old(products)
    {
      if !confirmed {
        return;
      }
      if ok {
        products := WithoutId(products, id);
      }
    }

    /**
     * `toggleStatus`: the status shown on the card decides the new status, which the
     * entries with the id take only once the store succeeded.
     */
    method ToggleStatus(id: Id, currentStatus: Status, ok: bool)
      modifies this`products
      ensures products == if ok then WithStatus(old(products), id, NextStatus(currentStatus)) else old(products)
    {
      var newStatus := NextStatus(currentStatus);
      if ok {
        products := WithStatus(products, id, newStatus);
      }
    }
  }
}
