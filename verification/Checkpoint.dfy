/** state.go: the durable checkpoint of one partition and its in-memory entry. */
module Checkpoint {
  import opened Rows

  /** A source identity, printed "ID:VisibleVersion". */
  datatype Identity = Identity(id: string, version: nat)

  /** An object prefix below the partition's own one: a full backup attempt writes
      under a fresh generation, a delta under a name derived from its batch. */
  datatype Prefix =
    | Full(generation: nat)
    | Incremental(from: int, to: int, identity: Identity)

  datatype DeltaState = DeltaState(
    from: int, to: int, identity: Identity, prefix: Prefix,
    objects: set<string>, backupReady: bool, importStarted: bool)

  /** The JSON row of partition_state; the default value stands for no row at all. */
  datatype PartitionRow = PartitionRow(
    sourceIdentity: Option<Identity>, backupIdentity: Option<Identity>,
    backupPrefix: Option<Prefix>, importedIdentity: Option<Identity>,
    objects: set<string>, backupReady: bool, importInProgress: bool,
    watermark: Option<int>, watermarkReady: bool, pendingDelta: Option<DeltaState>)

  const EMPTY_ROW := PartitionRow(None, None, None, None, {}, false, false, None, false, None)

  // ---------- What each step leaves in the row ----------

  function BackupBegun(d: PartitionRow, i: Identity, p: Prefix): PartitionRow {
    d.(sourceIdentity := Some(i), backupReady := false, backupIdentity := None,
       backupPrefix := Some(p), objects := {}, importInProgress := false)
  }

  function BackupAccepted(d: PartitionRow, i: Identity, objects: set<string>): PartitionRow {
    d.(backupIdentity := Some(i), objects := objects, backupReady := true)
  }

  function ImportFinished(d: PartitionRow, i: Identity): PartitionRow {
    d.(importedIdentity := Some(i), importInProgress := false)
  }

  function Seeded(d: PartitionRow, m: Option<int>): PartitionRow {
    d.(watermark := m, watermarkReady := true, pendingDelta := None)
  }

  function DeltaBegun(d: PartitionRow, to: int, i: Identity): PartitionRow
    requires d.watermark.Some?
  {
    var from := d.watermark.value;
    d.(pendingDelta := Some(DeltaState(from, to, i, Incremental(from, to, i), {}, false, false)))
  }

  function DeltaAccepted(d: PartitionRow, objects: set<string>): PartitionRow
    requires d.pendingDelta.Some?
  {
    d.(pendingDelta := Some(d.pendingDelta.value.(objects := objects, backupReady := true)))
  }

  function DeltaStarted(d: PartitionRow): PartitionRow
    requires d.pendingDelta.Some?
  {
    d.(pendingDelta := Some(d.pendingDelta.value.(importStarted := true)))
  }

  function DeltaDiscarded(d: PartitionRow): PartitionRow {
    d.(pendingDelta := None)
  }

  function DeltaFinished(d: PartitionRow): PartitionRow
    requires d.pendingDelta.Some?
  {
    var delta := d.pendingDelta.value;
    d.(importedIdentity := Some(delta.identity), watermark := Some(delta.to), watermarkReady := true,
       pendingDelta := None)
  }

  /** The in-memory entry, updated in place between saves and lost on a crash. */
  class PartitionState {
    var sourceIdentity: Option<Identity>
    var backupIdentity: Option<Identity>
    var backupPrefix: Option<Prefix>
    var importedIdentity: Option<Identity>
    var objects: set<string>
    var backupReady: bool
    var importInProgress: bool
    var watermark: Option<int>
    var watermarkReady: bool
    var pendingDelta: Option<DeltaState>

    /** What savePartition would write now. */
    function Row(): PartitionRow
      reads this
    {
      PartitionRow(sourceIdentity, backupIdentity, backupPrefix, importedIdentity, objects,
                   backupReady, importInProgress, watermark, watermarkReady, pendingDelta)
    }

    constructor ()
      ensures Row() == EMPTY_ROW
    {
      sourceIdentity, backupIdentity, backupPrefix, importedIdentity := None, None, None, None;
      objects, backupReady, importInProgress := {}, false, false;
      watermark, watermarkReady, pendingDelta := None, false, None;
    }

    method BeginBackup(i: Identity, p: Prefix)
      modifies this
      ensures Row() == BackupBegun(old(Row()), i, p)
    {
      sourceIdentity := Some(i);
      backupReady := false;
      backupIdentity := None;
      backupPrefix := Some(p);
      objects := {};
      importInProgress := false;
    }

    method AcceptBackup(i: Identity, names: set<string>)
      modifies this
      ensures Row() == BackupAccepted(old(Row()), i, names)
    {
      backupIdentity := Some(i);
      objects := names;
      backupReady := true;
    }

    method ForgetImport()
      modifies this
      ensures Row() == old(Row()).(importedIdentity := None)
    {
      importedIdentity := None;
    }

    method BeginImport()
      modifies this
      ensures Row() == old(Row()).(importInProgress := true)
    {
      importInProgress := true;
    }

    method FinishImport(i: Identity)
      modifies this
      ensures Row() == ImportFinished(old(Row()), i)
    {
      importedIdentity := Some(i);
      importInProgress := false;
    }

    method Seed(m: Option<int>)
      modifies this
      ensures Row() == Seeded(old(Row()), m)
    {
      watermark, watermarkReady, pendingDelta := m, true, None;
    }

    method BeginDelta(to: int, i: Identity)
      requires watermark.Some?
      modifies this
      ensures Row() == DeltaBegun(old(Row()), to, i)
    {
      var from := watermark.value;
      pendingDelta := Some(DeltaState(from, to, i, Incremental(from, to, i), {}, false, false));
    }

    method AcceptDelta(names: set<string>)
      requires pendingDelta.Some?
      modifies this
      ensures Row() == DeltaAccepted(old(Row()), names)
    {
      pendingDelta := Some(pendingDelta.value.(objects := names, backupReady := true));
    }

    method StartDelta()
      requires pendingDelta.Some?
      modifies this
      ensures Row() == DeltaStarted(old(Row()))
    {
      pendingDelta := Some(pendingDelta.value.(importStarted := true));
    }

    method DiscardDelta()
      modifies this
      ensures Row() == DeltaDiscarded(old(Row()))
    {
      pendingDelta := None;
    }

    method FinishDelta()
      requires pendingDelta.Some?
      modifies this
      ensures Row() == DeltaFinished(old(Row()))
    {
      importedIdentity, watermark := Some(pendingDelta.value.identity), Some(pendingDelta.value.to);
      watermarkReady, pendingDelta := true, None;
    }

    /** openState after a restart: the entry becomes the saved row. */
    method Load(row: PartitionRow)
      modifies this
      ensures Row() == row
    {
      sourceIdentity, backupIdentity := row.sourceIdentity, row.backupIdentity;
      backupPrefix, importedIdentity := row.backupPrefix, row.importedIdentity;
      objects, backupReady, importInProgress := row.objects, row.backupReady, row.importInProgress;
      watermark, watermarkReady, pendingDelta := row.watermark, row.watermarkReady, row.pendingDelta;
    }
  }
}
