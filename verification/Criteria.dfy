/**
 Versioned criteria (evaluation-criteria.service.ts) as a state machine. Every
 transaction holds the version's row lock from its SELECT ... FOR UPDATE to its
 commit; other statements and other transactions may run between its steps.
 Writes become visible at the commit.
 */
module Criteria {
  import opened Common
  import opened Judgment

  type Id = nat

  datatype Version = Version(kind: string, evaluationKey: string, version: string, publishedAt: Option<nat>, description: string)

  datatype CriterionRow = CriterionRow(version: Id, criterionKey: string, kind: Kind, name: string)

  datatype Work =
    | Publish(version: Id)
    | Add(row: CriterionRow)
    | Rename(id: Id, name: string)
    | Remove(id: Id)

  /**
   Where a transaction stands: begun, row of the criterion read (Rename, Remove),
   holding the lock, version seen as a draft, criteria counted (Publish).
   */
  datatype Phase = Begun | Located(version: Id) | Holding(version: Id) | SeenDraft(version: Id) | Counted(version: Id)

  datatype Tx = Tx(work: Work, phase: Phase)

  datatype Catalog = Catalog(
    versions: map<Id, Version>,
    criteria: map<Id, CriterionRow>,
    locks: map<Id, Id>,
    txs: map<Id, Tx>,
    usedIds: set<Id>)

  datatype Action =
    | CreateVersion(id: Id, kind: string, evaluationKey: string, version: string)
    | UpdateVersion(id: Id, description: string)
    | Begin(tx: Id, work: Work)
    | Locate(tx: Id)
    | Acquire(tx: Id)
    | CheckDraft(tx: Id)
    | CountCriteria(tx: Id)
    | Commit(tx: Id, now: nat, newId: Id)

  /** Rows returned by `listCriteria`; the key is the criterion id. */
  function Rows(c: Catalog, version: Id): map<Id, CriterionRow> {
    map id | id in c.criteria && c.criteria[id].version == version :: c.criteria[id]
  }

  predicate Published(c: Catalog, version: Id) {
    version in c.versions && c.versions[version].publishedAt.Some?
  }

  predicate HasName(v: Version, kind: string, evaluationKey: string, version: string) {
    v.kind == kind && v.evaluationKey == evaluationKey && v.version == version
  }

  /** Whether the unique index refuses another version of that name. */
  predicate NameTaken(c: Catalog, kind: string, evaluationKey: string, version: string) {
    exists id :: id in c.versions && HasName(c.versions[id], kind, evaluationKey, version)
  }

  predicate SameName(a: Version, b: Version) {
    a.kind == b.kind && a.evaluationKey == b.evaluationKey && a.version == b.version
  }

  ghost predicate UniqueNames(versions: map<Id, Version>) {
    forall a, b :: a in versions && b in versions && SameName(versions[a], versions[b]) ==> a == b
  }

  predicate HoldsLock(phase: Phase) {
    phase.Holding? || phase.SeenDraft? || phase.Counted?
  }

  function Drop(c: Catalog, tx: Id): Catalog {
    c.(txs := c.txs - {tx})
  }

  /** End a transaction that holds the lock of `version`. */
  function Release(c: Catalog, tx: Id, version: Id): Catalog {
    c.(txs := c.txs - {tx}, locks := c.locks - {version})
  }

  predicate Enabled(c: Catalog, a: Action) {
    match a
    case CreateVersion(id, kind, key, version) => id !in c.versions && !NameTaken(c, kind, key, version)
    // The UPDATE needs the row lock for the duration of the statement.
    case UpdateVersion(id, _) => id !in c.locks
    case Begin(tx, work) => tx !in c.txs
    case Locate(tx) => tx in c.txs && c.txs[tx].phase.Begun? && (c.txs[tx].work.Rename? || c.txs[tx].work.Remove?)
    case Acquire(tx) =>
      && tx in c.txs
      && (match c.txs[tx].phase
          case Begun => c.txs[tx].work.Publish? || c.txs[tx].work.Add?
          case Located(_) => true
          case _ => false)
      && Target(c.txs[tx]) !in c.locks
    case CheckDraft(tx) => tx in c.txs && c.txs[tx].phase.Holding?
    case CountCriteria(tx) => tx in c.txs && c.txs[tx].phase.SeenDraft? && c.txs[tx].work.Publish?
    // Criterion ids are generated at insertion and never reused.
    case Commit(tx, _, newId) =>
      && tx in c.txs && newId !in c.usedIds
      && if c.txs[tx].work.Publish? then c.txs[tx].phase.Counted? else c.txs[tx].phase.SeenDraft?
  }

  /** The version whose row the transaction locks. */
  function Target(tx: Tx): Id {
    match tx.phase
    case Begun => (match tx.work
                   case Publish(version) => version
                   case Add(row) => row.version
                   case _ => 0)
    case Located(version) => version
    case Holding(version) => version
    case SeenDraft(version) => version
    case Counted(version) => version
  }

  function Apply(c: Catalog, a: Action): Catalog
    requires Enabled(c, a)
  {
    match a
    case CreateVersion(id, kind, key, version) => c.(versions := c.versions[id := Version(kind, key, version, None, "")])
    case UpdateVersion(id, description) =>
      if id in c.versions && c.versions[id].publishedAt.None?
      then c.(versions := c.versions[id := c.versions[id].(description := description)]) else c
    case Begin(tx, work) => c.(txs := c.txs[tx := Tx(work, Begun)])
    case Locate(tx) =>
      var id := c.txs[tx].work.id;
      if id in c.criteria then c.(txs := c.txs[tx := c.txs[tx].(phase := Located(c.criteria[id].version))])
      else Drop(c, tx)
    case Acquire(tx) =>
      var version := Target(c.txs[tx]);
      // FOR UPDATE on a row that does not exist locks nothing, and the read that follows throws.
      if version in c.versions
      then c.(txs := c.txs[tx := c.txs[tx].(phase := Holding(version))], locks := c.locks[version := tx])
      else Drop(c, tx)
    case CheckDraft(tx) =>
      var version := Target(c.txs[tx]);
      if version !in c.versions || Published(c, version) then Release(c, tx, version)
      else c.(txs := c.txs[tx := c.txs[tx].(phase := SeenDraft(version))])
    case CountCriteria(tx) =>
      var version := Target(c.txs[tx]);
      if Rows(c, version) == map[] then Release(c, tx, version)
      else c.(txs := c.txs[tx := c.txs[tx].(phase := Counted(version))])
    case Commit(tx, now, newId) => Release(Write(c, c.txs[tx].work, now, newId), tx, Target(c.txs[tx]))
  }

  /** The writing statement of a transaction; a failing one leaves everything as it was. */
  function Write(c: Catalog, work: Work, now: nat, newId: Id): Catalog {
    match work
    case Publish(version) =>
      if version in c.versions then c.(versions := c.versions[version := c.versions[version].(publishedAt := Some(now))]) else c
    case Add(row) =>
      if exists other :: other in c.criteria && SameKey(c.criteria[other], row) then c
      else c.(criteria := c.criteria[newId := row], usedIds := c.usedIds + {newId})
    case Rename(id, name) =>
      if id in c.criteria then c.(criteria := c.criteria[id := c.criteria[id].(name := name)]) else c
    case Remove(id) => c.(criteria := c.criteria - {id})
  }

  /** The unique index on (ruleSetVersionId, criterionKey). */
  predicate SameKey(a: CriterionRow, b: CriterionRow) {
    a.version == b.version && a.criterionKey == b.criterionKey
  }

  // ---- The invariant ----

  ghost predicate LockOk(c: Catalog) {
    && (forall version :: version in c.locks ==> version in c.versions && c.locks[version] in c.txs)
    && (forall tx :: tx in c.txs && HoldsLock(c.txs[tx].phase) ==>
          Target(c.txs[tx]) in c.locks && c.locks[Target(c.txs[tx])] == tx)
    && (forall version :: version in c.locks ==>
          HoldsLock(c.txs[c.locks[version]].phase) && Target(c.txs[c.locks[version]]) == version)
  }

  /** What a transaction learned under the lock stays true until it ends. */
  ghost predicate KnowledgeOk(c: Catalog) {
    forall tx :: tx in c.txs ==> Knows(c, c.txs[tx])
  }

  ghost predicate Knows(c: Catalog, tx: Tx) {
    && (tx.phase.SeenDraft? || tx.phase.Counted? ==> !Published(c, Target(tx)))
    && (tx.phase.Counted? ==> tx.work.Publish? && HasCriteria(c, Target(tx)))
    && TargetFits(c, tx)
  }

  /** A transaction locks the version that owns the row it writes. */
  ghost predicate TargetFits(c: Catalog, tx: Tx) {
    match tx.work
    case Publish(version) => Target(tx) == version && !tx.phase.Located?
    case Add(row) => Target(tx) == row.version && !tx.phase.Located? && !tx.phase.Counted?
    case Rename(id, _) => tx.phase.Begun? || LocatedIn(c, id, Target(tx))
    case Remove(id) => tx.phase.Begun? || LocatedIn(c, id, Target(tx))
  }

  ghost predicate LocatedIn(c: Catalog, id: Id, version: Id) {
    id in c.usedIds && (id in c.criteria ==> c.criteria[id].version == version)
  }

  ghost predicate HasCriteria(c: Catalog, version: Id) {
    exists id :: id in c.criteria && c.criteria[id].version == version
  }

  ghost predicate RowsOk(c: Catalog) {
    && (forall id :: id in c.criteria ==> id in c.usedIds && c.criteria[id].version in c.versions)
    && (forall a, b :: a in c.criteria && b in c.criteria && a != b ==> !SameKey(c.criteria[a], c.criteria[b]))
    && (forall version :: Published(c, version) ==> HasCriteria(c, version))
  }

  ghost predicate Inv(c: Catalog) {
    LockOk(c) && KnowledgeOk(c) && RowsOk(c)
  }

  ghost predicate Init(c: Catalog) {
    c == Catalog(map[], map[], map[], map[], {})
  }

  lemma LocksAfterPhase(c: Catalog, tx: Id, phase: Phase)
    requires LockOk(c) && tx in c.txs && HoldsLock(phase) == HoldsLock(c.txs[tx].phase)
    requires HoldsLock(phase) ==> Target(c.txs[tx].(phase := phase)) == Target(c.txs[tx])
    ensures LockOk(c.(txs := c.txs[tx := c.txs[tx].(phase := phase)]))
  {
  }

  lemma LocksAfterAcquire(c: Catalog, tx: Id)
    requires LockOk(c) && Enabled(c, Acquire(tx))
    ensures LockOk(Apply(c, Acquire(tx)))
  {
  }

  lemma LocksAfterDrop(c: Catalog, tx: Id)
    requires LockOk(c) && tx in c.txs && !HoldsLock(c.txs[tx].phase)
    ensures LockOk(Drop(c, tx))
  {
  }

  lemma LocksAfterRelease(c: Catalog, tx: Id)
    requires LockOk(c) && tx in c.txs && HoldsLock(c.txs[tx].phase)
    ensures LockOk(Release(c, tx, Target(c.txs[tx])))
  {
  }

  lemma LocksArePreserved(c: Catalog, a: Action)
    requires LockOk(c) && Enabled(c, a)
    ensures LockOk(Apply(c, a))
  {
    match a {
      case CreateVersion(_, _, _, _) =>
      case UpdateVersion(_, _) =>
      case Begin(_, _) =>
      case Locate(tx) =>
        var id := c.txs[tx].work.id;
        if id in c.criteria {
          LocksAfterPhase(c, tx, Located(c.criteria[id].version));
        } else {
          LocksAfterDrop(c, tx);
        }
      case Acquire(tx) => LocksAfterAcquire(c, tx);
      case CheckDraft(tx) =>
        LocksAfterRelease(c, tx);
        LocksAfterPhase(c, tx, SeenDraft(Target(c.txs[tx])));
      case CountCriteria(tx) =>
        LocksAfterRelease(c, tx);
        LocksAfterPhase(c, tx, Counted(Target(c.txs[tx])));
      case Commit(tx, now, newId) => LocksAfterCommit(c, tx, now, newId);
    }
  }

  lemma LocksAfterCommit(c: Catalog, tx: Id, now: nat, newId: Id)
    requires LockOk(c) && Enabled(c, Commit(tx, now, newId))
    ensures LockOk(Apply(c, Commit(tx, now, newId)))
  {
    var written := Write(c, c.txs[tx].work, now, newId);
    assert written.locks == c.locks && written.txs == c.txs && c.versions.Keys <= written.versions.Keys;
    LocksAfterRelease(written, tx);
  }

  lemma KnowledgeIsPreserved(c: Catalog, a: Action)
    requires Inv(c) && Enabled(c, a)
    ensures KnowledgeOk(Apply(c, a))
  {
    var c' := Apply(c, a);
    forall tx | tx in c'.txs ensures Knows(c', c'.txs[tx]) {
      if a.Commit? {
        CommitLeavesOthersRight(c, a, tx);
      } else if tx in c.txs {
        assert Knows(c, c.txs[tx]);
        OtherStepsTeach(c, a, tx);
      }
    }
  }

  /** A commit writes only under the lock of its own version. */
  lemma CommitLeavesOthersRight(c: Catalog, a: Action, tx: Id)
    requires Inv(c) && Enabled(c, a) && a.Commit? && tx in c.txs && tx != a.tx
    ensures Knows(Apply(c, a), c.txs[tx])
  {
    var c' := Apply(c, a);
    var target := Target(c.txs[tx]);
    assert Knows(c, c.txs[tx]) && Knows(c, c.txs[a.tx]);
    if HoldsLock(c.txs[tx].phase) {
      assert target != Target(c.txs[a.tx]);
    }
    if c.txs[tx].phase.Counted? {
      var id :| id in c.criteria && c.criteria[id].version == target;
      assert id in c'.criteria && c'.criteria[id].version == target;
    }
  }

  /** Everything transactions know about is the same. */
  ghost predicate SameFacts(c: Catalog, c': Catalog) {
    c'.criteria == c.criteria && c'.usedIds == c.usedIds && forall version :: Published(c', version) <==> Published(c, version)
  }

  lemma OnlyCommitsMatter(c: Catalog, a: Action)
    requires Enabled(c, a) && !a.Commit?
    ensures SameFacts(c, Apply(c, a))
  {
  }

  lemma KnowledgeStays(c: Catalog, c': Catalog, tx: Tx)
    requires SameFacts(c, c') && Knows(c, tx)
    ensures Knows(c', tx)
  {
    if tx.phase.Counted? {
      var id :| id in c.criteria && c.criteria[id].version == Target(tx);
      assert id in c'.criteria;
    }
  }

  /** What a transaction's own step teaches it is true of the catalog it reads. */
  lemma OwnStepTeaches(c: Catalog, a: Action, tx: Id)
    requires Inv(c) && Enabled(c, a) && (a.Locate? || a.Acquire? || a.CheckDraft? || a.CountCriteria?) && a.tx == tx
    requires tx in Apply(c, a).txs
    ensures Knows(c, Apply(c, a).txs[tx])
  {
    assert Knows(c, c.txs[tx]);
    if a.CountCriteria? {
      var id :| id in Rows(c, Target(c.txs[tx]));
      assert id in c.criteria && c.criteria[id].version == Target(c.txs[tx]);
    }
  }

  lemma OtherStepsTeach(c: Catalog, a: Action, tx: Id)
    requires Inv(c) && Enabled(c, a) && !a.Commit? && tx in c.txs && tx in Apply(c, a).txs
    ensures Knows(Apply(c, a), Apply(c, a).txs[tx])
  {
    OnlyCommitsMatter(c, a);
    assert Knows(c, c.txs[tx]);
    if (a.Locate? || a.Acquire? || a.CheckDraft? || a.CountCriteria?) && a.tx == tx {
      OwnStepTeaches(c, a, tx);
    }
    KnowledgeStays(c, Apply(c, a), Apply(c, a).txs[tx]);
  }

  lemma CriteriaStay(c: Catalog, a: Action, version: Id)
    requires Inv(c) && Enabled(c, a) && Published(c, version)
    ensures HasCriteria(Apply(c, a), version)
  {
    PublishedIsFrozen(c, a, version);
    var id :| id in c.criteria && c.criteria[id].version == version;
    assert id in Rows(c, version) && id in Rows(Apply(c, a), version);
  }

  /** Only a publication that counted criteria publishes. */
  lemma PublicationHasCriteria(c: Catalog, a: Action, version: Id)
    requires Inv(c) && Enabled(c, a) && !Published(c, version) && Published(Apply(c, a), version)
    ensures HasCriteria(Apply(c, a), version)
  {
    if !a.Commit? {
      OnlyCommitsMatter(c, a);
    }
    assert Knows(c, c.txs[a.tx]);
    var id :| id in c.criteria && c.criteria[id].version == version;
    assert id in Apply(c, a).criteria;
  }

  lemma KeysArePreserved(c: Catalog, a: Action)
    requires Inv(c) && Enabled(c, a)
    ensures var c' := Apply(c, a);
            && (forall id :: id in c'.criteria ==> id in c'.usedIds && c'.criteria[id].version in c'.versions)
            && (forall a, b :: a in c'.criteria && b in c'.criteria && a != b ==> !SameKey(c'.criteria[a], c'.criteria[b]))
  {
    if a.Commit? {
      assert Knows(c, c.txs[a.tx]);
    }
  }

  lemma RowsArePreserved(c: Catalog, a: Action)
    requires Inv(c) && Enabled(c, a)
    ensures RowsOk(Apply(c, a))
  {
    KeysArePreserved(c, a);
    forall version | Published(Apply(c, a), version) ensures HasCriteria(Apply(c, a), version) {
      if Published(c, version) {
        CriteriaStay(c, a, version);
      } else {
        PublicationHasCriteria(c, a, version);
      }
    }
  }

  lemma InvIsPreserved(c: Catalog, a: Action)
    requires Inv(c) && Enabled(c, a)
    ensures Inv(Apply(c, a))
  {
    LocksArePreserved(c, a);
    KnowledgeIsPreserved(c, a);
    RowsArePreserved(c, a);
  }

  /** What a published version is to its readers. */
  ghost predicate SamePublication(c: Catalog, c': Catalog, version: Id) {
    && version in c.versions && version in c'.versions && c'.versions[version] == c.versions[version]
    && Rows(c', version) == Rows(c, version)
  }

  /** The writing statement of a transaction touches drafts only. */
  lemma WriteSparesPublished(c: Catalog, tx: Id, now: nat, newId: Id, version: Id)
    requires Inv(c) && Enabled(c, Commit(tx, now, newId)) && Published(c, version)
    ensures SamePublication(c, Write(c, c.txs[tx].work, now, newId), version)
  {
    assert Knows(c, c.txs[tx]);
  }

  /** No step changes the publication or the criteria of a published version. */
  lemma PublishedIsFrozen(c: Catalog, a: Action, version: Id)
    requires Inv(c) && Enabled(c, a) && Published(c, version)
    ensures var c' := Apply(c, a);
            && version in c'.versions && c'.versions[version] == c.versions[version]
            && Rows(c', version) == Rows(c, version)
  {
    if a.Commit? {
      WriteSparesPublished(c, a.tx, a.now, a.newId, version);
    } else {
      assert Apply(c, a).criteria == c.criteria;
    }
  }

  // ---- Whole executions ----

  ghost predicate Execution(states: seq<Catalog>, actions: seq<Action>) {
    && |states| == |actions| + 1 && Init(states[0])
    && forall i :: 0 <= i < |actions| ==> Enabled(states[i], actions[i]) && states[i + 1] == Apply(states[i], actions[i])
  }

  lemma NamesNext(c: Catalog, a: Action)
    requires Enabled(c, a) && UniqueNames(c.versions)
    ensures UniqueNames(Apply(c, a).versions)
  {
  }

  /** No two versions ever have one name. */
  lemma {:induction false} NamesStayUnique(states: seq<Catalog>, actions: seq<Action>, i: nat)
    requires Execution(states, actions) && i < |states|
    ensures UniqueNames(states[i].versions)
  {
    if i > 0 {
      NamesStayUnique(states, actions, i - 1);
      NamesNext(states[i - 1], actions[i - 1]);
    }
  }

  lemma {:induction false} InvAlways(states: seq<Catalog>, actions: seq<Action>, i: nat)
    requires Execution(states, actions) && i < |states|
    ensures Inv(states[i])
  {
    if i > 0 {
      InvAlways(states, actions, i - 1);
      InvIsPreserved(states[i - 1], actions[i - 1]);
    }
  }

  /** A version is created as a draft under its name; until it is published its description can be changed, and only that. */
  lemma VersionStatementsWrite(c: Catalog, id: Id, kind: string, key: string, version: string, description: string)
    ensures Enabled(c, CreateVersion(id, kind, key, version)) ==>
              Apply(c, CreateVersion(id, kind, key, version)) == c.(versions := c.versions[id := Version(kind, key, version, None, "")])
    ensures Enabled(c, UpdateVersion(id, description)) ==>
              var c' := Apply(c, UpdateVersion(id, description));
              && c'.versions.Keys == c.versions.Keys && c' == c.(versions := c'.versions)
              && (forall other :: other in c.versions && other != id ==> c'.versions[other] == c.versions[other])
              && (id in c.versions ==> SameVersion(c.versions[id], c'.versions[id]))
              && (id in c.versions && !Published(c, id) ==> c'.versions[id].description == description)
              && (Published(c, id) ==> c' == c)
  {
  }

  predicate SameVersion(v: Version, v': Version) {
    v'.kind == v.kind && v'.evaluationKey == v.evaluationKey && v'.version == v.version && v'.publishedAt == v.publishedAt
  }

  /** What a commit writes: exactly its own work, on the row it names. */
  lemma CommitWrites(c: Catalog, tx: Id, now: nat, newId: Id)
    requires Inv(c) && Enabled(c, Commit(tx, now, newId))
    ensures var c' := Apply(c, Commit(tx, now, newId));
            match c.txs[tx].work
            case Publish(version) =>
              && version in c.versions && c'.criteria == c.criteria
              && c'.versions == c.versions[version := c.versions[version].(publishedAt := Some(now))]
            case Add(row) =>
              c'.versions == c.versions && (c'.criteria == c.criteria[newId := row] || c'.criteria == c.criteria)
              && (c'.criteria == c.criteria <==>
                    exists other :: other in c.criteria && c.criteria[other].version == row.version
                                    && c.criteria[other].criterionKey == row.criterionKey)
            case Rename(id, name) =>
              && c'.versions == c.versions && c'.criteria.Keys == c.criteria.Keys
              && (id in c.criteria ==> c'.criteria[id] == CriterionRow(c.criteria[id].version, c.criteria[id].criterionKey, c.criteria[id].kind, name))
              && (forall other :: other in c.criteria && other != id ==> c'.criteria[other] == c.criteria[other])
            case Remove(id) => c'.versions == c.versions && c'.criteria == c.criteria - {id}
  {
    assert Knows(c, c.txs[tx]);
    if c.txs[tx].work.Add? {
      assert newId !in c.criteria;
      assert forall other :: other in c.criteria ==>
          (SameKey(c.criteria[other], c.txs[tx].work.row) <==>
             c.criteria[other].version == c.txs[tx].work.row.version
             && c.criteria[other].criterionKey == c.txs[tx].work.row.criterionKey);
    }
  }

  /**
   From the moment a version is published, in every interleaving: its row is never
   written again, its criteria are not empty, and every reader gets the same rows.
   */
  lemma {:induction false} PublishedForever(states: seq<Catalog>, actions: seq<Action>, version: Id, i: nat, j: nat)
    requires Execution(states, actions) && i <= j < |states|
    requires Published(states[i], version)
    ensures Published(states[j], version) && states[j].versions[version] == states[i].versions[version]
    ensures Rows(states[j], version) == Rows(states[i], version) && Rows(states[i], version) != map[]
    decreases j
  {
    InvAlways(states, actions, i);
    var id :| id in states[i].criteria && states[i].criteria[id].version == version;
    assert id in Rows(states[i], version);
    if i < j {
      PublishedForever(states, actions, version, i, j - 1);
      InvAlways(states, actions, j - 1);
      PublishedIsFrozen(states[j - 1], actions[j - 1], version);
    }
  }

  lemma PublishedAtMostOnce(states: seq<Catalog>, actions: seq<Action>, version: Id, i: nat, j: nat)
    requires Execution(states, actions) && i < |actions| && j < |actions|
    requires !Published(states[i], version) && Published(states[i + 1], version)
    requires !Published(states[j], version) && Published(states[j + 1], version)
    ensures i == j
  {
    if i < j {
      PublishedForever(states, actions, version, i + 1, j);
    } else if j < i {
      PublishedForever(states, actions, version, j + 1, i);
    }
  }

  // ---- Criteria as the judgment sees them ----

  ghost function KindsIn(rows: map<Id, CriterionRow>): Kinds {
    map key | key in (set id | id in rows :: rows[id].criterionKey) :: KindOf(rows, key)
  }

  ghost function KindOf(rows: map<Id, CriterionRow>, key: string): Kind
    requires exists id :: id in rows && rows[id].criterionKey == key
  {
    var id :| id in rows && rows[id].criterionKey == key;
    rows[id].kind
  }

  /** What `listCriteria` returns when the rows come in the order `ids`. */
  function Listing(rows: map<Id, CriterionRow>, ids: seq<Id>): (r: seq<Criterion>)
    requires forall id :: id in ids ==> id in rows
    ensures |r| == |ids|
  {
    seq(|ids|, i requires 0 <= i < |ids| && ids[i] in rows => Criterion(rows[ids[i]].criterionKey, rows[ids[i]].kind))
  }

  /** In whatever order the rows are listed, the validator builds the same lookup from them. */
  lemma {:induction false} ListingGivesKinds(rows: map<Id, CriterionRow>, ids: seq<Id>)
    requires forall id :: id in rows <==> id in ids
    requires forall a, b :: a in rows && b in rows && a != b ==> rows[a].criterionKey != rows[b].criterionKey
    ensures KindsOf(Listing(rows, ids)) == KindsIn(rows)
  {
    var listing := Listing(rows, ids);
    KindsOfConsistent(listing, KindsIn(rows));
    assert KindsOf(listing).Keys == KindsIn(rows).Keys by {
      forall key | key in KindsIn(rows) ensures key in KindsOf(listing) {
        var id :| id in rows && rows[id].criterionKey == key;
        var i :| 0 <= i < |ids| && ids[i] == id;
        assert listing[i].criterionKey == key;
      }
    }
  }

  lemma {:induction false} KindsOfConsistent(listing: seq<Criterion>, kinds: Kinds)
    requires forall c :: c in listing ==> c.criterionKey in kinds && kinds[c.criterionKey] == c.kind
    ensures forall key :: key in KindsOf(listing) ==> key in kinds && kinds[key] == KindsOf(listing)[key]
    ensures forall c :: c in listing ==> c.criterionKey in KindsOf(listing)
  {
    if listing != [] {
      var n := |listing| - 1;
      KindsOfConsistent(listing[..n], kinds);
      assert listing == listing[..n] + [listing[n]];
    }
  }
}
