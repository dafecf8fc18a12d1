/**
 EvaluationCriteriaService as an object over its tables, one transaction at a time
 (evaluation-criteria.service.ts). Interleaved transactions are the subject of Criteria,
 whose writes these methods perform.
 */
module CriteriaService {
  import opened Common
  import C = Criteria

  datatype Refusal = NotFound | Immutable | NoCriteria | DuplicateKey

  /** Nothing but criteria changes. */
  predicate OnlyCriteria(c: C.Catalog, c': C.Catalog) {
    c'.versions == c.versions && c'.txs == c.txs && c'.locks == c.locks
  }

  /** A new name is all that changes of a criterion. */
  predicate SameBut(row: C.CriterionRow, row': C.CriterionRow) {
    row'.version == row.version && row'.criterionKey == row.criterionKey && row'.kind == row.kind
  }

  /** Nothing changes but the publication time of one version, from none to now. */
  predicate OnlyPublishes(c: C.Catalog, c': C.Catalog, version: C.Id, now: nat) {
    && version in c.versions && c.versions[version].publishedAt == None
    && c' == c.(versions := c.versions[version := c.versions[version].(publishedAt := Some(now))])
  }

  class EvaluationCriteriaService {
    var catalog: C.Catalog

    /** No transaction is open, and the tables are as the transactions leave them. */
    ghost predicate Valid()
      reads this
    {
      C.Inv(catalog) && catalog.txs == map[] && catalog.locks == map[]
    }

    constructor ()
      ensures Valid() && catalog == C.Catalog(map[], map[], map[], map[], {})
    {
      catalog := C.Catalog(map[], map[], map[], map[], {});
    }

    /** Published once, never without criteria, and nothing else changes. */
    method PublishVersion(version: C.Id, now: nat) returns (r: Result<(), Refusal>)
      requires Valid()
      modifies this
      ensures Valid()
      ensures r.Ok? <==>
                && version in old(catalog).versions && !C.Published(old(catalog), version)
                && C.Rows(old(catalog), version) != map[]
      ensures r == Err(NotFound) <==> version !in old(catalog).versions
      ensures r == Err(Immutable) <==> C.Published(old(catalog), version)
      ensures r.Err? ==> catalog == old(catalog)
      ensures r.Ok? ==> OnlyPublishes(old(catalog), catalog, version, now)
    {
      if version !in catalog.versions {
        return Err(NotFound);
      }
      if catalog.versions[version].publishedAt.Some? {
        return Err(Immutable);
      }
      if C.Rows(catalog, version) == map[] {
        return Err(NoCriteria);
      }
      ghost var before := catalog;
      catalog := catalog.(versions := catalog.versions[version := catalog.versions[version].(publishedAt := Some(now))]);
      PublishKeepsInv(before, version, now);
      r := Ok(());
    }

    /** The shared guard of the criterion writes. */
    method LockDraftVersion(version: C.Id) returns (r: Result<(), Refusal>)
      ensures r.Ok? <==> version in catalog.versions && !C.Published(catalog, version)
      ensures r == Err(NotFound) <==> version !in catalog.versions
      ensures r == Err(Immutable) <==> C.Published(catalog, version)
    {
      if version !in catalog.versions {
        return Err(NotFound);
      }
      if catalog.versions[version].publishedAt.Some? {
        return Err(Immutable);
      }
      r := Ok(());
    }

    method AddCriterion(row: C.CriterionRow, newId: C.Id) returns (r: Result<(), Refusal>)
      requires Valid() && newId !in catalog.usedIds
      modifies this
      ensures Valid()
      ensures r.Ok? <==> row.version in old(catalog).versions && !C.Published(old(catalog), row.version)
                         && !exists id :: id in old(catalog).criteria && C.SameKey(old(catalog).criteria[id], row)
      ensures r.Err? ==> catalog == old(catalog)
      ensures r.Ok? ==> OnlyCriteria(old(catalog), catalog) && catalog.criteria == old(catalog).criteria[newId := row]
    {
      var guard := LockDraftVersion(row.version);
      if guard.Err? {
        return guard;
      }
      if exists id :: id in catalog.criteria && C.SameKey(catalog.criteria[id], row) {
        return Err(DuplicateKey);
      }
      ghost var before := catalog;
      catalog := catalog.(criteria := catalog.criteria[newId := row], usedIds := catalog.usedIds + {newId});
      AddKeepsInv(before, row, newId);
      r := Ok(());
    }

    method UpdateCriterion(id: C.Id, name: string) returns (r: Result<(), Refusal>)
      requires Valid()
      modifies this
      ensures Valid()
      ensures r.Ok? <==> id in old(catalog).criteria && !C.Published(old(catalog), old(catalog).criteria[id].version)
      ensures r.Err? ==> catalog == old(catalog)
      ensures r.Ok? ==>
                && OnlyCriteria(old(catalog), catalog) && catalog.criteria.Keys == old(catalog).criteria.Keys
                && (forall other :: other in catalog.criteria && other != id ==> catalog.criteria[other] == old(catalog).criteria[other])
                && catalog.criteria[id].name == name && SameBut(old(catalog).criteria[id], catalog.criteria[id])
    {
      if id !in catalog.criteria {
        return Err(NotFound);
      }
      var guard := LockDraftVersion(catalog.criteria[id].version);
      if guard.Err? {
        return guard;
      }
      ghost var before := catalog;
      catalog := catalog.(criteria := catalog.criteria[id := catalog.criteria[id].(name := name)]);
      RenameKeepsInv(before, id, name);
      r := Ok(());
    }

    method RemoveCriterion(id: C.Id) returns (r: Result<(), Refusal>)
      requires Valid()
      modifies this
      ensures Valid()
      ensures r.Ok? <==> id in old(catalog).criteria && !C.Published(old(catalog), old(catalog).criteria[id].version)
      ensures r.Err? ==> catalog == old(catalog)
      ensures r.Ok? ==> OnlyCriteria(old(catalog), catalog) && catalog.criteria == old(catalog).criteria - {id}
    {
      if id !in catalog.criteria {
        return Err(NotFound);
      }
      var guard := LockDraftVersion(catalog.criteria[id].version);
      if guard.Err? {
        return guard;
      }
      ghost var before := catalog;
      catalog := catalog.(criteria := catalog.criteria - {id});
      RemoveKeepsInv(before, id);
      r := Ok(());
    }
  }

  /** No open transaction: the invariant is about the rows alone. */
  ghost predicate Quiet(c: C.Catalog) {
    C.Inv(c) && c.txs == map[] && c.locks == map[]
  }

  lemma StillNotEmpty(c: C.Catalog, c': C.Catalog, version: C.Id)
    requires C.HasCriteria(c, version)
    requires forall id :: id in c.criteria && c.criteria[id].version == version ==>
               id in c'.criteria && c'.criteria[id].version == version
    ensures C.HasCriteria(c', version)
  {
  }

  lemma PublishKeepsInv(c: C.Catalog, version: C.Id, now: nat)
    requires Quiet(c) && version in c.versions && !C.Published(c, version) && C.Rows(c, version) != map[]
    ensures Quiet(C.Write(c, C.Publish(version), now, 0))
  {
    var c' := C.Write(c, C.Publish(version), now, 0);
    var id :| id in C.Rows(c, version);
    assert C.HasCriteria(c, version);
    forall v | C.Published(c', v) ensures C.HasCriteria(c', v) {
      StillNotEmpty(c, c', v);
    }
  }

  lemma AddKeepsInv(c: C.Catalog, row: C.CriterionRow, newId: C.Id)
    requires Quiet(c) && newId !in c.usedIds && row.version in c.versions
    requires !exists id :: id in c.criteria && C.SameKey(c.criteria[id], row)
    ensures Quiet(C.Write(c, C.Add(row), 0, newId))
  {
    var c' := C.Write(c, C.Add(row), 0, newId);
    forall v | C.Published(c', v) ensures C.HasCriteria(c', v) {
      StillNotEmpty(c, c', v);
    }
  }

  lemma RenameKeepsInv(c: C.Catalog, id: C.Id, name: string)
    requires Quiet(c) && id in c.criteria
    ensures Quiet(C.Write(c, C.Rename(id, name), 0, 0))
  {
    var c' := C.Write(c, C.Rename(id, name), 0, 0);
    forall v | C.Published(c', v) ensures C.HasCriteria(c', v) {
      StillNotEmpty(c, c', v);
    }
  }

  lemma RemoveKeepsInv(c: C.Catalog, id: C.Id)
    requires Quiet(c) && id in c.criteria && !C.Published(c, c.criteria[id].version)
    ensures Quiet(C.Write(c, C.Remove(id), 0, 0))
  {
    var c' := C.Write(c, C.Remove(id), 0, 0);
    forall v | C.Published(c', v) ensures C.HasCriteria(c', v) {
      StillNotEmpty(c, c', v);
    }
  }
}
