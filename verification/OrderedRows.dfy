/** The columns of ordered_records, and how records are written to them and scanned from them. */
module OrderedRows {
  import opened Common
  import opened OrderedTypes
  import opened Decimal

  /** The columns in the order of RecordColumns; revision and order travel as decimal text. */
  datatype Row = Row(
    namespace: Bytes, orderingScope: Bytes, stableKey: Bytes, rankingScope: Bytes,
    revisionText: Bytes, orderText: Bytes,
    value: Bytes, valueIsNil: bool, ranked: bool, rankValue: int, dueState: int, dueAt: int, deleted: bool)

  /** Stands for storage.ValidateOrderedRecord, which is not part of this model. */
  predicate ValidRecord(r: OrderedRecord) {
    && ValidName(r.id.namespace) && ValidName(r.id.orderingScope) && r.id.stableKey != [] && ValidName(r.rankingScope)
    && r.revision > 0 && r.order > 0 && ValidValue(r.value) && ValidDue(r.due)
  }

  function ToRow(r: OrderedRecord): Row {
    Row(r.id.namespace, r.id.orderingScope, r.id.stableKey, r.rankingScope, PrintNat(r.revision), PrintNat(r.order),
        if r.value.None? then [] else r.value.value, r.value.None?, r.rank.ranked, r.rank.value,
        if r.due.state == NotDue then 0 else 1, r.due.unixMillis, r.deleted)
  }

  /** scanRecord.  States other than 0 and 1 fail: beyond a byte at once, the rest in the validation of the record. */
  function ScanRecord(row: Row): Option<OrderedRecord> {
    var revision, order := ParseUint(row.revisionText), ParseUint(row.orderText);
    if revision.None? || order.None? || row.dueState < 0 || row.dueState > 1 then None
    else
      var r := OrderedRecord(OrderedID(row.namespace, row.orderingScope, row.stableKey), row.rankingScope,
                             revision.value, order.value,
                             if row.valueIsNil then None else Some(row.value), Rank(row.ranked, row.rankValue),
                             Due(if row.dueState == 0 then NotDue else DueAt, row.dueAt), row.deleted);
      if ValidRecord(r) then Some(r) else None
  }

  /** What is stored is what is read back: nil and empty values stay apart, and the full uint64 range survives. */
  lemma ScanInvertsStore(r: OrderedRecord)
    requires ValidRecord(r) && r.revision <= MAX_UINT64 && r.order <= MAX_UINT64
    ensures ScanRecord(ToRow(r)) == Some(r)
  {
    hide ParseUint, PrintNat;
    ParseUintIsExact(PrintNat(r.revision), r.revision);
    ParseUintIsExact(PrintNat(r.order), r.order);
  }

  /** An accepted row is the one its record would be stored as, but for the ignored bytes beside a nil value. */
  lemma ScanAcceptsOnlyStoredForms(row: Row)
    requires ScanRecord(row).Some?
    ensures var r := ScanRecord(row).value;
            ValidRecord(r) && r.revision <= MAX_UINT64 && r.order <= MAX_UINT64
            && ToRow(r) == row.(value := if row.valueIsNil then [] else row.value)
  {
    hide ParseUint, PrintNat;
    var r := ScanRecord(row).value;
    ParseUintIsExact(row.revisionText, r.revision);
    ParseUintIsExact(row.orderText, r.order);
  }

  /** scanRecords: all rows or an error; `fails` is where the connection breaks, if it does. */
  method ScanRecords(rows: seq<Row>, fails: Option<nat>) returns (records: Option<seq<OrderedRecord>>)
    ensures records.Some? <==> (fails.None? || fails.value > |rows|) && forall i :: 0 <= i < |rows| ==>
              ScanRecord(rows[i]).Some?
    ensures records.Some? ==> |records.value| == |rows|
    ensures records.Some? ==> forall i :: 0 <= i < |rows| ==> ScanRecord(rows[i]) == Some(records.value[i])
  {
    hide ScanRecord;
    var scanned: seq<OrderedRecord>, i := [], 0;
    while i < |rows|
      invariant i <= |rows| && |scanned| == i
      invariant fails.Some? ==> fails.value >= i
      invariant forall j :: 0 <= j < i ==> ScanRecord(rows[j]) == Some(scanned[j])
    {
      if fails == Some(i) {
        return None;
      }
      var record := ScanRecord(rows[i]);
      if record.None? {
        return None;
      }
      scanned := scanned + [record.value];
      i := i + 1;
    }
    if fails == Some(i) {
      return None;
    }
    return Some(scanned);
  }
}
