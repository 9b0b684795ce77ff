/**
 * The restart journal of one transfer: an atomically replaced record of the last offset both
 * sides committed, and of the fsynced intent to close an upload.
 */
module TransferJournal {
  import opened Octets
  import opened Bytes
  import opened Crc
  import opened PackBits
  import opened OpenCodec

  /** A stream is journalled at least this often. */
  const JOURNAL_INTERVAL := 0x1_0000

  datatype Record = Record(order: Descriptor, offset: Long, crc: bv32, closeIntent: bool)

  datatype JournalError = PastEnd | CrcWithoutBytes | IncompleteIntent | OtherBinding | IntentCleared

  datatype SaveResult = Saved | Refused(why: JournalError) | Interrupted

  /** The part of a descriptor the document holds: everything but the resume request. */
  function Bare(d: Descriptor): Descriptor {
    d.(resumeOffset := 0, resumeCrc := 0, resume := false, receiptless := false)
  }

  /** The descriptor that asks the MSX to go on from a record. */
  function Resumed(r: Record): Descriptor {
    r.order.(resumeOffset := r.offset, resumeCrc := r.crc, resume := true, receiptless := r.closeIntent)
  }

  function RecordFault(r: Record): Option<JournalError> {
    if r.offset > r.order.wireSize && !MetadataUnknown(r.order) then Some(PastEnd)
    else if r.offset == 0 && r.crc != 0 then Some(CrcWithoutBytes)
    else if r.closeIntent
            && (r.order.direction != Put || r.offset != r.order.wireSize || r.crc != r.order.wireCrc)
    then Some(IncompleteIntent)
    else None
  }

  /** A GET record written before the size was known may take the real size and checksum. */
  predicate Promotes(saved: Descriptor, next: Descriptor) {
    MetadataUnknown(saved) && next.direction == Get
    && saved.encoding == next.encoding && saved.id == next.id && saved.path == next.path
  }

  function SaveFault(existing: Option<Record>, r: Record): Option<JournalError> {
    if RecordFault(r).Some? then RecordFault(r)
    else if existing.None? then None
    else if !SameBinding(existing.value.order, r.order) && !Promotes(existing.value.order, r.order)
    then Some(OtherBinding)
    else if existing.value.closeIntent && !r.closeIntent then Some(IntentCleared)
    else None
  }

  predicate Loadable(r: Record) {
    RecordFault(r).None? && OpenCodec.Valid(r.order) && r.order == Bare(r.order)
  }

  /** Every loadable record can be turned into a descriptor; its receiptless bit is the intent. */
  lemma ResumedIsValid(r: Record)
    requires Loadable(r)
    ensures OpenCodec.Valid(Resumed(r)) && SameBinding(Resumed(r), r.order)
    ensures Resumed(r).receiptless ==> r.order.direction == Put && r.offset == r.order.wireSize
  {
  }

  /** Records accepted one after another into the same file. */
  ghost predicate SavedInTurn(records: seq<Record>) {
    forall i | 0 < i < |records| :: SaveFault(Some(records[i - 1]), records[i]).None?
  }

  /** A close intent is never lost, and pins every later record to the complete boundary. */
  lemma {:induction false} IntentIsMonotone(records: seq<Record>, i: nat, j: nat)
    requires SavedInTurn(records) && i <= j < |records| && records[i].closeIntent
    requires Loadable(records[i])
    ensures records[j].closeIntent
    ensures records[j].offset == records[i].order.wireSize && records[j].crc == records[i].order.wireCrc
    ensures SameBinding(records[j].order, records[i].order)
    decreases j - i
  {
    if i < j {
      IntentIsMonotone(records, i, j - 1);
      assert SaveFault(Some(records[j - 1]), records[j]).None?;
      assert records[j - 1].order.direction == Put;
    }
  }

  class Journal {
    /** The host never stops in the middle of an update. */
    const steady: bool
    var record: Option<Record>
    /** The document was deleted after its transfer succeeded; its random ID never returns. */
    var removed: bool

    constructor (steady: bool)
      ensures record.None? && !removed && this.steady == steady
    {
      this.steady, record, removed := steady, None, false;
    }

    /** Writes a temporary file, syncs it and renames it over the document, or stops on the way. */
    method Save(order: Descriptor, offset: Long, crc: bv32, closeIntent: bool) returns (r: SaveResult)
      modifies this`record
      ensures var next := Record(Bare(order), offset, crc, closeIntent);
              match r
              case Saved => SaveFault(old(record), next).None? && record == Some(next)
              case Refused(why) => SaveFault(old(record), next) == Some(why) && record == old(record)
              case Interrupted =>
                && !steady
                && (record == old(record) || (SaveFault(old(record), next).None? && record == Some(next)))
    {
      var early: bool, late: bool := *, *;
      var next := Record(Bare(order), offset, crc, closeIntent);
      match SaveFault(record, next) {
        case Some(why) => return Refused(why);
        case None =>
      }
      if early && !steady {
        return Interrupted;
      }
      record := Some(next);
      return if late && !steady then Interrupted else Saved;
    }

    /** Deletes the document; `done` is false when the deletion was not seen to finish. */
    method Remove() returns (done: bool)
      modifies this
      ensures done ==> record.None? && removed
      ensures !done ==> (record == old(record) && removed == old(removed)) || (record.None? && removed)
      ensures steady ==> done
    {
      var early: bool, late: bool := *, *;
      if early && !steady {
        return false;
      }
      record, removed := None, true;
      return !late || steady;
    }
  }
}
