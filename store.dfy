/** The record store: the in-memory table of production records that the two
    input forms append to. Records are never updated or deleted. */
module Store {
  import opened Records

  /** The column names a batch upload must carry (in any order, extra columns allowed). */
  const ExpectedColumns: seq<string> :=
    ["Tanggal", "Nama Mitra", "Lokasi", "Jumlah SPK", "Jumlah Operasi", "Jumlah Produksi"]

  /** An uploaded table: its column names and its rows, read as records. */
  datatype Upload = Upload(columns: seq<string>, rows: seq<Record>)

  ghost predicate HasExpectedColumns(columns: seq<string>)
  {
    forall i :: 0 <= i < |ExpectedColumns| ==> ExpectedColumns[i] in columns
  }

  /** Checks, column by column and stopping at the first one missing, that every
      expected column name is present. */
  method CheckColumns(columns: seq<string>) returns (ok: bool)
    ensures ok <==> HasExpectedColumns(columns)
    ensures !ok ==> exists i :: 0 <= i < |ExpectedColumns| && ExpectedColumns[i] !in columns
  {
    var i := 0;
    while i < |ExpectedColumns|
      invariant 0 <= i <= |ExpectedColumns|
      invariant forall j :: 0 <= j < i ==> ExpectedColumns[j] in columns
    {
      if ExpectedColumns[i] !in columns {
        return false;
      }
      i := i + 1;
    }
    return true;
  }

  class RecordStore {
    /** All records, oldest first. */
    var records: seq<Record>

    /** A store holding the records loaded from the data file. */
    constructor (loaded: seq<Record>)
      ensures records == loaded
    {
      records := loaded;
    }

    /** The single-record form: the record is added at the end exactly when
        both the partner name and the location are non-empty. The form's
        widgets only accept non-negative counts and production. */
    method AddSingle(date: int, partner: string, location: string, spk: nat, ops: nat, prod: real)
      returns (added: bool)
      requires prod >= 0.0
      modifies this
      ensures added <==> partner != [] && location != []
      ensures records == if added then old(records) + [Record(date, partner, location, spk, ops, prod)]
                         else old(records)
    {
      if partner != [] && location != [] {
        records := records + [Record(date, partner, location, spk, ops, prod)];
        added := true;
      } else {
        added := false;
      }
    }

    /** The batch upload: all rows are added at the end, in order, exactly
        when every expected column is present; otherwise nothing changes. */
    method AddBatch(upload: Upload) returns (added: bool)
      modifies this
      ensures added <==> HasExpectedColumns(upload.columns)
      ensures records == if added then old(records) + upload.rows else old(records)
    {
      added := CheckColumns(upload.columns);
      if added {
        records := records + upload.rows;
      }
    }
  }
}
