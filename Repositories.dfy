/**
 * SaleRepository: the sale store. The database table becomes a map from Id
 * to Sale; every operation reads or rewrites that map, and SaveChanges
 * always succeeds.
 */
module Repositories {
  import opened Primitives
  import opened Domain

  /** Every sale is stored under its own Id, as a primary key guarantees. */
  ghost predicate WellKeyed(sales: map<Guid, Sale>) {
    forall id :: id in sales ==> sales[id].id == id
  }

  /**
   * The store after the sale with `id` (if any) has had its status set to
   * `status` in place: nothing else changes.
   */
  function WithStatus(sales: map<Guid, Sale>, id: Guid, status: SaleStatus): (r: map<Guid, Sale>)
    ensures r.Keys == sales.Keys
    ensures forall k :: k in sales && k != id ==> r[k] == sales[k]
    ensures id in sales ==> r[id].status == status && r[id].(status := sales[id].status) == sales[id]
    ensures WellKeyed(sales) ==> WellKeyed(r)
  {
    if id in sales then sales[id := sales[id].(status := status)] else sales
  }

  /** Cancelling twice leaves the store as cancelling once. */
  lemma CancelIsIdempotent(sales: map<Guid, Sale>, id: Guid)
    ensures WithStatus(WithStatus(sales, id, Cancelled), id, Cancelled) == WithStatus(sales, id, Cancelled)
  {
  }

  /** The status a stored sale had does not matter: the new status replaces it. */
  lemma StatusChangeIgnoresCurrentStatus(sales: map<Guid, Sale>, id: Guid, first: SaleStatus, second: SaleStatus)
    requires id in sales
    ensures WithStatus(WithStatus(sales, id, first), id, second) == WithStatus(sales, id, second)
    ensures WithStatus(WithStatus(sales, id, first), id, second)[id].status == second
  {
  }

  class SaleRepository {
    /** The Sales table. */
    var sales: map<Guid, Sale>

    ghost predicate Valid()
      reads this
    {
      WellKeyed(sales)
    }

    constructor()
      ensures Valid()
      ensures sales == map[]
    {
      sales := map[];
    }

    /**
     * CreateAsync: adds the sale and hands back the same sale. A sale whose
     * Id is still Guid.Empty gets the key the store generates.
     */
    method Create(sale: Sale, generatedId: Guid) returns (created: Sale)
      requires Valid()
      requires generatedId != EmptyGuid
      requires (if sale.id == EmptyGuid then generatedId else sale.id) !in sales
      modifies this
      ensures Valid()
      ensures sale.id != EmptyGuid ==> created == sale
      ensures sale.id == EmptyGuid ==> created == sale.(id := generatedId)
      ensures created.id !in old(sales)
      ensures sales == old(sales)[created.id := created]
    {
      created := if sale.id == EmptyGuid then sale.(id := generatedId) else sale;
      sales := sales[created.id := created];
    }

    /** GetByIdAsync: the sale with that Id, or none. */
    method GetById(id: Guid) returns (found: Option<Sale>)
      requires Valid()
      ensures found.Some? <==> id in sales
      ensures found.Some? ==> found.value == sales[id] && found.value.id == id
    {
      if id in sales {
        found := Some(sales[id]);
      } else {
        found := None;
      }
    }

    /**
     * GetByDateRangeAsync: every sale dated between the two bounds, both
     * inclusive, each once.
     */
    method GetByDateRange(startDate: Ticks, endDate: Ticks) returns (found: seq<Sale>)
      requires Valid()
      ensures forall s :: s in found ==> s.id in sales && sales[s.id] == s && startDate <= s.saleDate <= endDate
      ensures forall id :: id in sales && startDate <= sales[id].saleDate <= endDate ==> sales[id] in found
      ensures forall i, j :: 0 <= i < j < |found| ==> found[i].id != found[j].id
      ensures startDate > endDate ==> found == []
    {
      found := [];
      var pending := sales.Keys;
      while pending != {}
        invariant pending <= sales.Keys
        invariant forall s :: s in found ==> s.id in sales && s.id !in pending && sales[s.id] == s && startDate <= s.saleDate <= endDate
        invariant forall id :: id in sales && id !in pending && startDate <= sales[id].saleDate <= endDate ==> sales[id] in found
        invariant forall i, j :: 0 <= i < j < |found| ==> found[i].id != found[j].id
        invariant startDate > endDate ==> found == []
        decreases |pending|
      {
        var id :| id in pending;
        var sale := sales[id];
        if startDate <= sale.saleDate <= endDate {
          found := found + [sale];
        }
        pending := pending - {id};
      }
    }

    /** DeleteAsync: false and no change for an unknown Id; otherwise only that sale goes. */
    method Delete(id: Guid) returns (deleted: bool)
      requires Valid()
      modifies this
      ensures Valid()
      ensures deleted <==> id in old(sales)
      ensures sales == old(sales) - {id}
    {
      if id !in sales {
        return false;
      }
      sales := sales - {id};
      return true;
    }

    /**
     * GetBySaleNumberAsync: some sale with that number (the first the table
     * yields), or none exactly when no sale carries it.
     */
    method GetBySaleNumber(saleNumber: Int64) returns (found: Option<Sale>)
      requires Valid()
      ensures found.Some? ==> found.value.id in sales && sales[found.value.id] == found.value
      ensures found.Some? ==> found.value.saleNumber == saleNumber
      ensures found.None? <==> forall id :: id in sales ==> sales[id].saleNumber != saleNumber
    {
      var pending := sales.Keys;
      while pending != {}
        invariant pending <= sales.Keys
        invariant forall id :: id in sales && id !in pending ==> sales[id].saleNumber != saleNumber
        decreases |pending|
      {
        var id :| id in pending;
        if sales[id].saleNumber == saleNumber {
          return Some(sales[id]);
        }
        pending := pending - {id};
      }
      return None;
    }

    /**
     * CancelAsync: false and no change for an unknown Id; otherwise that
     * sale, whatever its status, becomes Cancelled and nothing else changes.
     */
    method Cancel(id: Guid) returns (cancelled: bool)
      requires Valid()
      modifies this
      ensures Valid()
      ensures cancelled <==> id in old(sales)
      ensures sales == WithStatus(old(sales), id, Cancelled)
    {
      if id !in sales {
        return false;
      }
      sales := sales[id := sales[id].(status := Cancelled)];
      return true;
    }

    /**
     * UpdateAsync: the sale, whatever its status, is stored back as Modified;
     * the answer is always true.
     */
    method Update(existingSale: Sale) returns (updated: bool)
      requires Valid()
      requires existingSale.id in sales
      modifies this
      ensures Valid()
      ensures updated
      ensures sales == old(sales)[existingSale.id := existingSale.(status := Modified)]
    {
      sales := sales[existingSale.id := existingSale.(status := Modified)];
      return true;
    }
  }
}
