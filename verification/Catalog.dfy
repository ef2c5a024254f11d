/**
 Catalog membership: once a scan refers to a catalog, the catalog's control versions, their
 framework mappings and every reference of every mapped framework can no longer be extended.
 */
module Catalog {
  import opened Wrappers
  import opened Scans

  datatype CatalogRow = CatalogRow(key: string, version: string)

  datatype ControlVersion = ControlVersion(catalogId: Id, controlId: Id)

  datatype Mapping = Mapping(controlVersionId: Id, referenceId: Id)

  datatype Reference = Reference(frameworkId: Id, key: string, parent: Option<Id>)

  datatype Db = Db(
    catalogs: map<Id, CatalogRow>,
    controls: set<Id>,
    frameworks: set<Id>,
    versions: map<Id, ControlVersion>,
    mappings: map<Id, Mapping>,
    references: map<Id, Reference>,
    scans: map<Id, Scan>)

  function Empty(): Db {
    Db(map[], {}, {}, map[], map[], map[], map[])
  }

  datatype Step =
    | InsertCatalog(id: Id, catalog: CatalogRow)
    | InsertControl(id: Id)
    | InsertFramework(id: Id)
    | InsertVersion(id: Id, version: ControlVersion)
    | InsertMapping(id: Id, mapping: Mapping)
    | InsertReference(id: Id, reference: Reference)
    | InsertScan(id: Id, scan: Scan)
    | UpdateScan(id: Id, scan: Scan)
    | DeleteScan(id: Id)

  // ----- Guards -----

  predicate Names(c: CatalogRow, s: Scan) {
    c.key == s.scope.catalogKey && c.version == s.scope.catalogVersion
  }

  predicate Referenced(db: Db, c: Id) {
    c in db.catalogs && exists s :: s in db.scans && Names(db.catalogs[c], db.scans[s])
  }

  /** Control version v belongs to a catalog some scan refers to. */
  predicate VersionReferenced(db: Db, v: Id) {
    v in db.versions && Referenced(db, db.versions[v].catalogId)
  }

  /** Some reference of framework f is mapped from a referenced catalog. */
  predicate FrameworkReferenced(db: Db, f: Id) {
    exists m :: && m in db.mappings
                && db.mappings[m].referenceId in db.references
                && db.references[db.mappings[m].referenceId].frameworkId == f
                && VersionReferenced(db, db.mappings[m].controlVersionId)
  }

  /** The natural keys whose duplicates skip the guard and end in a unique-key conflict. */
  predicate DuplicateVersion(db: Db, v: ControlVersion) {
    exists o :: o in db.versions && db.versions[o] == v
  }

  predicate DuplicateMapping(db: Db, m: Mapping) {
    exists o :: o in db.mappings && db.mappings[o] == m
  }

  predicate DuplicateReference(db: Db, r: Reference) {
    exists o :: o in db.references && db.references[o].frameworkId == r.frameworkId && db.references[o].key == r.key
  }

  predicate GuardPasses(db: Db, s: Step) {
    match s
    case InsertVersion(_, v) => DuplicateVersion(db, v) || !Referenced(db, v.catalogId)
    case InsertMapping(_, m) => DuplicateMapping(db, m) || !VersionReferenced(db, m.controlVersionId)
    case InsertReference(_, r) => DuplicateReference(db, r) || !FrameworkReferenced(db, r.frameworkId)
    case _ => true
  }

  /** Primary, unique and foreign keys, and the scan lifecycle. */
  predicate KeysHold(db: Db, s: Step) {
    match s
    case InsertCatalog(id, c) => id !in db.catalogs && forall o :: o in db.catalogs ==> db.catalogs[o] != c
    case InsertControl(id) => id !in db.controls
    case InsertFramework(id) => id !in db.frameworks
    case InsertVersion(id, v) =>
      id !in db.versions && !DuplicateVersion(db, v) && v.catalogId in db.catalogs && v.controlId in db.controls
    case InsertMapping(id, m) =>
      id !in db.mappings && !DuplicateMapping(db, m)
      && m.controlVersionId in db.versions && m.referenceId in db.references
    case InsertReference(id, r) =>
      id !in db.references && !DuplicateReference(db, r) && r.frameworkId in db.frameworks
      && (r.parent.Some? ==>
            r.parent.value in db.references && db.references[r.parent.value].frameworkId == r.frameworkId)
    case InsertScan(id, scan) => id !in db.scans && ScanInsertable(scan) && CatalogExists(db, scan)
    case UpdateScan(id, scan) => id in db.scans && ScanUpdatable(db.scans[id], scan) && CatalogExists(db, scan)
    case DeleteScan(id) => id in db.scans && db.scans[id].status == RUNNING
  }

  predicate CatalogExists(db: Db, scan: Scan) {
    exists c :: c in db.catalogs && Names(db.catalogs[c], scan)
  }

  function Apply(db: Db, s: Step): Db {
    match s
    case InsertCatalog(id, c) => db.(catalogs := db.catalogs[id := c])
    case InsertControl(id) => db.(controls := db.controls + {id})
    case InsertFramework(id) => db.(frameworks := db.frameworks + {id})
    case InsertVersion(id, v) => db.(versions := db.versions[id := v])
    case InsertMapping(id, m) => db.(mappings := db.mappings[id := m])
    case InsertReference(id, r) => db.(references := db.references[id := r])
    case InsertScan(id, scan) => db.(scans := db.scans[id := scan])
    case UpdateScan(id, scan) => db.(scans := db.scans[id := scan])
    case DeleteScan(id) => db.(scans := db.scans - {id})
  }

  /** A statement past its guard may still meet a key conflict, which fails it or does nothing. */
  function Exec(db: Db, s: Step): Db {
    if GuardPasses(db, s) && KeysHold(db, s) then Apply(db, s) else db
  }

  function Run(db: Db, steps: seq<Step>): Db
    decreases |steps|
  {
    if steps == [] then db else Exec(Run(db, steps[..|steps| - 1]), steps[|steps| - 1])
  }

  // ----- The closure of a catalog -----

  datatype Closure = Closure(
    versions: map<Id, ControlVersion>, mappings: map<Id, Mapping>, references: map<Id, Reference>)

  function VersionsOf(versions: map<Id, ControlVersion>, c: Id): map<Id, ControlVersion> {
    map v | v in versions && versions[v].catalogId == c :: versions[v]
  }

  function MappingsOf(mappings: map<Id, Mapping>, versions: map<Id, ControlVersion>): map<Id, Mapping> {
    map m | m in mappings && mappings[m].controlVersionId in versions :: mappings[m]
  }

  /** Framework f has a reference that one of the mappings points at. */
  predicate Mapped(mappings: map<Id, Mapping>, references: map<Id, Reference>, f: Id) {
    exists m :: m in mappings && mappings[m].referenceId in references
                && references[mappings[m].referenceId].frameworkId == f
  }

  function ReferencesOf(references: map<Id, Reference>, mappings: map<Id, Mapping>): map<Id, Reference> {
    map r | r in references && Mapped(mappings, references, references[r].frameworkId) :: references[r]
  }

  function ClosureOf(db: Db, c: Id): Closure {
    var versions := VersionsOf(db.versions, c);
    var mappings := MappingsOf(db.mappings, versions);
    Closure(versions, mappings, ReferencesOf(db.references, mappings))
  }

  ghost predicate KeysResolve(db: Db) {
    && (forall v :: v in db.versions ==> db.versions[v].catalogId in db.catalogs)
    && (forall m :: m in db.mappings ==>
          db.mappings[m].controlVersionId in db.versions && db.mappings[m].referenceId in db.references)
  }

  lemma KeysKeepResolving(db: Db, s: Step)
    requires KeysResolve(db)
    ensures KeysResolve(Exec(db, s))
  {
  }

  lemma {:induction false} ReachableKeysResolve(steps: seq<Step>)
    ensures KeysResolve(Run(Empty(), steps))
    decreases |steps|
  {
    if steps != [] {
      ReachableKeysResolve(steps[..|steps| - 1]);
      KeysKeepResolving(Run(Empty(), steps[..|steps| - 1]), steps[|steps| - 1]);
    }
  }

  // ----- The freeze -----

  lemma VersionOutside(db: Db, id: Id, v: ControlVersion, c: Id)
    requires KeysResolve(db) && id !in db.versions && v.catalogId != c
    ensures ClosureOf(db.(versions := db.versions[id := v]), c) == ClosureOf(db, c)
  {
    assert VersionsOf(db.versions[id := v], c) == VersionsOf(db.versions, c);
  }

  lemma MappingOutside(db: Db, id: Id, m: Mapping, c: Id)
    requires id !in db.mappings && m.controlVersionId !in VersionsOf(db.versions, c)
    ensures ClosureOf(db.(mappings := db.mappings[id := m]), c) == ClosureOf(db, c)
  {
    var versions := VersionsOf(db.versions, c);
    assert MappingsOf(db.mappings[id := m], versions) == MappingsOf(db.mappings, versions);
  }

  lemma ReferenceOutside(db: Db, id: Id, r: Reference, c: Id)
    requires KeysResolve(db) && id !in db.references
    requires !Mapped(MappingsOf(db.mappings, VersionsOf(db.versions, c)), db.references, r.frameworkId)
    ensures ClosureOf(db.(references := db.references[id := r]), c) == ClosureOf(db, c)
  {
    var mappings := MappingsOf(db.mappings, VersionsOf(db.versions, c));
    var references := db.references[id := r];
    forall f ensures Mapped(mappings, references, f) <==> Mapped(mappings, db.references, f) {
      if Mapped(mappings, db.references, f) {
        var m :| m in mappings && mappings[m].referenceId in db.references
                 && db.references[mappings[m].referenceId].frameworkId == f;
        assert m in mappings && references[mappings[m].referenceId].frameworkId == f;
      }
    }
    assert ReferencesOf(references, mappings) == ReferencesOf(db.references, mappings);
  }

  /** No statement changes the closure of a catalog that some scan refers to. */
  lemma StepFreezesClosure(db: Db, s: Step, c: Id)
    requires KeysResolve(db) && Referenced(db, c)
    ensures ClosureOf(Exec(db, s), c) == ClosureOf(db, c)
  {
    if GuardPasses(db, s) && KeysHold(db, s) {
      match s
      case InsertVersion(id, v) => VersionOutside(db, id, v, c);
      case InsertMapping(id, m) => MappingOutside(db, id, m, c);
      case InsertReference(id, r) => ReferenceOutside(db, id, r, c);
      case _ =>
    }
  }

  /** While a catalog stays referenced, its closure stays the same, row for row. */
  lemma {:induction false} ClosureFrozen(before: seq<Step>, after: seq<Step>, c: Id)
    requires forall k :: 0 <= k < |after| ==> Referenced(Run(Run(Empty(), before), after[..k]), c)
    ensures ClosureOf(Run(Run(Empty(), before), after), c) == ClosureOf(Run(Empty(), before), c)
    decreases |after|
  {
    if after != [] {
      var last := |after| - 1;
      var prefix := after[..last];
      forall k | 0 <= k < |prefix| ensures Referenced(Run(Run(Empty(), before), prefix[..k]), c) {
        assert prefix[..k] == after[..k];
      }
      ClosureFrozen(before, prefix, c);
      RunKeysResolve(Run(Empty(), before), prefix, before);
      StepFreezesClosure(Run(Run(Empty(), before), prefix), after[last], c);
    }
  }

  lemma {:induction false} RunKeysResolve(db: Db, steps: seq<Step>, before: seq<Step>)
    requires db == Run(Empty(), before)
    ensures KeysResolve(Run(db, steps))
    decreases |steps|
  {
    if steps == [] {
      ReachableKeysResolve(before);
    } else {
      RunKeysResolve(db, steps[..|steps| - 1], before);
      KeysKeepResolving(Run(db, steps[..|steps| - 1]), steps[|steps| - 1]);
    }
  }

  lemma RowsStay(db: Db, s: Step, scan: Id, c: Id)
    requires c in db.catalogs && scan in db.scans && db.scans[scan].status != RUNNING
    ensures var now := Exec(db, s);
            && c in now.catalogs && now.catalogs[c] == db.catalogs[c]
            && scan in now.scans && now.scans[scan] == db.scans[scan]
  {
  }

  lemma {:induction false} TerminalStaysReferencing(db: Db, steps: seq<Step>, scan: Id, c: Id)
    requires c in db.catalogs && scan in db.scans && db.scans[scan].status != RUNNING
    ensures var now := Run(db, steps);
            && c in now.catalogs && now.catalogs[c] == db.catalogs[c]
            && scan in now.scans && now.scans[scan] == db.scans[scan]
    decreases |steps|
  {
    if steps != [] {
      TerminalStaysReferencing(db, steps[..|steps| - 1], scan, c);
      RowsStay(Run(db, steps[..|steps| - 1]), steps[|steps| - 1], scan, c);
    }
  }

  /** After one scan of a catalog has become terminal, the closure is frozen for ever. */
  lemma ClosureFrozenForever(before: seq<Step>, after: seq<Step>, scan: Id, c: Id)
    requires var db := Run(Empty(), before);
             && c in db.catalogs && scan in db.scans
             && db.scans[scan].status != RUNNING && Names(db.catalogs[c], db.scans[scan])
    ensures ClosureOf(Run(Run(Empty(), before), after), c) == ClosureOf(Run(Empty(), before), c)
  {
    forall k | 0 <= k < |after| ensures Referenced(Run(Run(Empty(), before), after[..k]), c) {
      TerminalStaysReferencing(Run(Empty(), before), after[..k], scan, c);
    }
    ClosureFrozen(before, after, c);
  }

  /**
   The freeze is exact: a new control version, with its foreign keys in place and no duplicate,
   enters a catalog if and only if no scan refers to that catalog.
   */
  lemma VersionEntersUnreferenced(db: Db, id: Id, v: ControlVersion)
    requires id !in db.versions && !DuplicateVersion(db, v) && v.catalogId in db.catalogs && v.controlId in db.controls
    ensures ClosureOf(Exec(db, InsertVersion(id, v)), v.catalogId) != ClosureOf(db, v.catalogId)
            <==> !Referenced(db, v.catalogId)
  {
    var now := db.(versions := db.versions[id := v]);
    assert id in VersionsOf(now.versions, v.catalogId) && id !in VersionsOf(db.versions, v.catalogId);
    assert ClosureOf(now, v.catalogId).versions != ClosureOf(db, v.catalogId).versions;
  }

  /** Likewise a new mapping of one of the catalog's control versions. */
  lemma MappingEntersUnreferenced(db: Db, id: Id, m: Mapping)
    requires id !in db.mappings && !DuplicateMapping(db, m)
    requires m.controlVersionId in db.versions && m.referenceId in db.references
    ensures var c := db.versions[m.controlVersionId].catalogId;
            ClosureOf(Exec(db, InsertMapping(id, m)), c) != ClosureOf(db, c) <==> !Referenced(db, c)
  {
    var c := db.versions[m.controlVersionId].catalogId;
    var versions := VersionsOf(db.versions, c);
    assert id in MappingsOf(db.mappings[id := m], versions) && id !in MappingsOf(db.mappings, versions);
    assert ClosureOf(db.(mappings := db.mappings[id := m]), c).mappings != ClosureOf(db, c).mappings;
  }

  /** And a new reference of a framework the catalog maps, unless any referenced catalog maps it too. */
  lemma ReferenceEntersUnreferenced(db: Db, id: Id, r: Reference, c: Id)
    requires KeysHold(db, InsertReference(id, r))
    requires Mapped(MappingsOf(db.mappings, VersionsOf(db.versions, c)), db.references, r.frameworkId)
    ensures ClosureOf(Exec(db, InsertReference(id, r)), c) != ClosureOf(db, c)
            <==> !FrameworkReferenced(db, r.frameworkId)
  {
    var mappings := MappingsOf(db.mappings, VersionsOf(db.versions, c));
    var references := db.references[id := r];
    var m :| m in mappings && mappings[m].referenceId in db.references
             && db.references[mappings[m].referenceId].frameworkId == r.frameworkId;
    assert references[mappings[m].referenceId].frameworkId == r.frameworkId;
    assert Mapped(mappings, references, r.frameworkId);
    assert id in ReferencesOf(references, mappings) && id !in ReferencesOf(db.references, mappings);
    assert ClosureOf(db.(references := references), c).references != ClosureOf(db, c).references;
  }
}
