/** The values of the OrderedIndex primitive. */
module OrderedTypes {
  import opened Common

  /** The primary key of ordered_records. */
  datatype OrderedID = OrderedID(namespace: Bytes, orderingScope: Bytes, stableKey: Bytes)

  datatype Rank = Rank(ranked: bool, value: int)

  datatype DueState = NotDue | DueAt

  datatype Due = Due(state: DueState, unixMillis: int)

  /** A nil value and an empty value are different. */
  datatype OrderedRecord = OrderedRecord(
    id: OrderedID, rankingScope: Bytes, revision: nat, order: nat,
    value: Option<Bytes>, rank: Rank, due: Due, deleted: bool)

  /** The primary key of ordered_scopes. */
  datatype Scope = Scope(namespace: Bytes, orderingScope: Bytes)

  function ScopeOf(id: OrderedID): Scope { Scope(id.namespace, id.orderingScope) }

  const MAX_VALUE_BYTES: nat := 1_048_576

  /** Stands for storage.ValidateName, which is not part of this model. */
  predicate ValidName(name: Bytes) { name != [] }

  predicate ValidValue(value: Option<Bytes>) { value.Some? ==> |value.value| <= MAX_VALUE_BYTES }

  predicate ValidDue(due: Due) { due.state == NotDue ==> due.unixMillis == 0 }
}
