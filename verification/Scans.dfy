/**
 The `scans` row and its lifecycle: a scan starts RUNNING, may be rewritten while RUNNING,
 and is frozen from the update that makes it terminal.
 */
module Scans {
  import opened Wrappers

  /** UUID primary keys. */
  type Id = nat

  /** Hex SHA-256 text; the schema checks only its length. */
  type Digest = string

  /** Absolute time in microseconds. */
  type Time = int

  const DIGEST_LENGTH := 64

  predicate IsDigest(d: Digest) {
    |d| == DIGEST_LENGTH
  }

  /** SQL `length(trim(s)) > 0`: trim removes spaces only. */
  predicate NotBlank(s: string) {
    exists i :: 0 <= i < |s| && s[i] != ' '
  }

  datatype ScanStatus = RUNNING | COMPLETED | PARTIAL | FAILED

  /** The seven columns a verification scan must share with its baseline scan. */
  datatype ScanScope = ScanScope(
    requestedRegions: seq<string>,
    requestedServices: seq<string>,
    profileId: string,
    profileVersion: string,
    profileChecksum: Digest,
    catalogKey: string,
    catalogVersion: string)

  datatype Scan = Scan(
    account: Option<string>,
    scope: ScanScope,
    successfulRegions: seq<string>,
    startedAt: Time,
    completedAt: Option<Time>,
    status: ScanStatus,
    inventorySha: Option<Digest>,
    resultChecksum: Option<Digest>)

  /** The row's CHECK constraints; a NULL operand makes a length check pass. */
  predicate ScanChecks(s: Scan) {
    && (s.status == RUNNING <==> s.completedAt.None?)
    && (s.completedAt.Some? ==> s.completedAt.value >= s.startedAt)
    && IsDigest(s.scope.profileChecksum)
    && (s.inventorySha.Some? ==> IsDigest(s.inventorySha.value))
    && (s.status == RUNNING <==> s.resultChecksum.None?)
    && (s.resultChecksum.Some? ==> IsDigest(s.resultChecksum.value))
    && (s.status in {COMPLETED, PARTIAL} ==> s.account.Some? && s.inventorySha.Some?)
  }

  predicate ScanInsertable(s: Scan) {
    ScanChecks(s) && s.status == RUNNING
  }

  predicate ScanUpdatable(was: Scan, now: Scan) {
    was.status == RUNNING && ScanChecks(now)
  }
}
